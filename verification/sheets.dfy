/** The external calls a submission can make, recorded in the order they happen. */
module Effects {
  import Email

  datatype CredentialSource = Base64Key | JsonKey

  datatype Call =
    | SendEmail(mail: Email.EmailMessage)
    | InvokeAppendToSheet
    | LoadCredentials(source: CredentialSource)
    | AppendRow(spreadsheetId: string, range: string, row: seq<string>)

  datatype CallKind = SendEmailKind | InvokeAppendKind | LoadCredentialsKind | AppendRowKind

  function KindOf(c: Call): CallKind {
    match c
    case SendEmail(_) => SendEmailKind
    case InvokeAppendToSheet => InvokeAppendKind
    case LoadCredentials(_) => LoadCredentialsKind
    case AppendRow(_, _, _) => AppendRowKind
  }

  /** How many calls of kind `k` a trace holds. */
  function Count(calls: seq<Call>, k: CallKind): nat {
    if |calls| == 0 then 0
    else (if KindOf(calls[0]) == k then 1 else 0) + Count(calls[1..], k)
  }

  lemma {:induction false} CountConcat(a: seq<Call>, b: seq<Call>, k: CallKind)
    ensures Count(a + b, k) == Count(a, k) + Count(b, k)
    decreases |a|
  {
    if |a| > 0 {
      assert (a + b)[1..] == a[1..] + b;
      CountConcat(a[1..], b, k);
    } else {
      assert a + b == b;
    }
  }

  /** The count over a trace of at most two calls, read off position by position. */
  lemma CountShort(calls: seq<Call>, k: CallKind)
    requires |calls| <= 2
    ensures Count(calls, k) ==
      (if |calls| > 0 && KindOf(calls[0]) == k then 1 else 0) +
      (if |calls| > 1 && KindOf(calls[1]) == k then 1 else 0)
  {
    if |calls| > 1 {
      assert calls[1..][1..] == [];
    }
  }
}

/** `appendToSheet`: the precondition checks, the choice of credential source, the
    sixteen-column row, and the conversion of every append failure into a tagged result.
    The credential decoding, the Google client and the append request itself are
    foreign code; their outcomes are inputs. */
module Sheets {
  import opened Wrappers
  import opened Js
  import opened Decimal
  import opened Lead
  import opened Effects

  const DefaultRange: string := "Sheet1!A:P"
  const MissingIdMessage: string := "Google Sheets not configured (missing GOOGLE_SHEETS_ID)"
  const Base64FailureMessage: string := "Failed to decode Base64 credentials"
  const JsonFailureMessage: string := "Failed to parse JSON credentials"
  const NoCredentialsMessage: string := "Google Service Account not configured (no credentials found)"

  /** The error-message fragment for which the catch block tries to name the service account. */
  const PermissionPhrase: string := "does not have permission"

  /** The message of the `ReferenceError` raised by reading `credentials` outside its block. */
  const UndeclaredCredentialsMessage: string := "credentials is not defined"

  /** What decoding and parsing one credential source produced. */
  datatype ParseOutcome = Parsed | ParseFailed(message: string)

  /** What the append request (with the client construction before it) produced; a
      thrown error carries its `message` and `code`. */
  datatype AppendOutcome = AppendOk(updatedCells: nat, updatedRange: string) | AppendThrew(message: string, code: Value)

  /** Everything outside this function that `appendToSheet` depends on: the outcome of
      each credential source, the append outcome, the localised server timestamp and
      the clock reading for the lead id. */
  datatype SheetWorld = SheetWorld(
    base64: ParseOutcome,
    json: ParseOutcome,
    append: AppendOutcome,
    timestamp: string,
    millis: nat)

  /** The object `appendToSheet` resolves to. */
  datatype SheetResult =
    | Saved(updatedCells: nat, updatedRange: string)
    | NotConfigured(reason: string)
    | CredentialError(reason: string, cause: string)
    | AppendFailed(cause: string, details: Value)
  {
    /** `result.success` */
    predicate Success() {
      Saved?
    }

    /** `result.message` */
    function Message(): Value {
      match this
      case Saved(_, _) => Undefined
      case NotConfigured(m) => Str(m)
      case CredentialError(m, _) => Str(m)
      case AppendFailed(_, _) => Undefined
    }

    /** `result.error` */
    function Error(): Value {
      match this
      case Saved(_, _) => Undefined
      case NotConfigured(_) => Undefined
      case CredentialError(_, e) => Str(e)
      case AppendFailed(e, _) => Str(e)
    }
  }

  /** A run of `appendToSheet`: what it produced, and the calls it made. */
  datatype SheetRun<R> = SheetRun(result: R, calls: seq<Call>)

  /** The sheet range: `GOOGLE_SHEET_NAME || 'Sheet1!A:P'`. */
  function Range(env: Env): (range: string)
    ensures Truthy(env.sheetName) ==> range == env.sheetName.s
    ensures !Truthy(env.sheetName) ==> range == DefaultRange
  {
    OrElse(env.sheetName, DefaultRange)
  }

  /** The eight attribution columns, each `data.utm?.<key> || ''`. */
  function UtmColumns(utm: Option<UtmObject>): (cols: seq<string>)
    ensures |cols| == |UtmKeys|
    ensures forall i :: 0 <= i < |cols| ==> cols[i] == OrEmpty(UtmField(utm, UtmKeys[i]))
  {
    seq(|UtmKeys|, i requires 0 <= i < |UtmKeys| => OrEmpty(UtmField(utm, UtmKeys[i])))
  }

  function BuildRow(timestamp: string, b: Submission, millis: nat): (row: seq<string>)
    ensures |row| == 16
  {
    [timestamp, OrEmpty(b.name), OrEmpty(b.email), OrEmpty(b.phone), OrEmpty(b.city),
     OrEmpty(b.company), OrEmpty(b.message)]
    + UtmColumns(b.utm)
    + [LeadId(millis)]
  }

  /** The lead as the spreadsheet records it: every field already normalised. */
  datatype SheetRecord = SheetRecord(
    timestamp: string,
    name: string,
    email: string,
    phone: string,
    city: string,
    company: string,
    message: string,
    utm: seq<string>,
    leadMillis: nat)

  /** Reads a spreadsheet row back as a record; `None` when it is not sixteen columns
      ending in a lead identifier. */
  function ParseRow(row: seq<string>): Option<SheetRecord> {
    if |row| == 16 && IsLeadId(row[15]) then
      Some(SheetRecord(row[0], row[1], row[2], row[3], row[4], row[5], row[6], row[7..15], LeadMillis(row[15])))
    else
      None
  }

  /** The row written for a lead holds, column by column, the server timestamp, the six
      contact fields and the eight attribution fields (each `|| ''`), and the lead id;
      reading it back recovers exactly those values and the clock reading. */
  lemma RowRoundTrip(timestamp: string, b: Submission, millis: nat)
    ensures ParseRow(BuildRow(timestamp, b, millis)) == Some(SheetRecord(
      timestamp, OrEmpty(b.name), OrEmpty(b.email), OrEmpty(b.phone), OrEmpty(b.city),
      OrEmpty(b.company), OrEmpty(b.message),
      seq(|UtmKeys|, i requires 0 <= i < |UtmKeys| => OrEmpty(UtmField(b.utm, UtmKeys[i]))),
      millis))
  {
    var row := BuildRow(timestamp, b, millis);
    LeadIdRoundTrip(millis);
    assert row[15] == LeadId(millis);
    assert row[7..15] == UtmColumns(b.utm);
  }

  /** The body of the `try` block: either it settles on a result, or the append step throws. */
  datatype Attempt =
    | Settled(result: SheetResult, calls: seq<Call>)
    | Caught(message: string, code: Value, calls: seq<Call>)

  function AppendWith(env: Env, b: Submission, w: SheetWorld, loaded: seq<Call>): (a: Attempt)
    requires Truthy(env.sheetsId)
  {
    var calls := loaded + [AppendRow(env.sheetsId.s, Range(env), BuildRow(w.timestamp, b, w.millis))];
    match w.append
    case AppendOk(cells, range) => Settled(Saved(cells, range), calls)
    case AppendThrew(m, code) => Caught(m, code, calls)
  }

  /** The source the credentials are loaded from: the Base64 key whenever it is set, the
      raw JSON key only when the Base64 one is not. */
  function ChosenSource(env: Env): Option<CredentialSource> {
    if Truthy(env.keyBase64) then Some(Base64Key)
    else if Truthy(env.keyJson) then Some(JsonKey)
    else None
  }

  function OutcomeOf(w: SheetWorld, source: CredentialSource): ParseOutcome {
    match source
    case Base64Key => w.base64
    case JsonKey => w.json
  }

  function Try(env: Env, b: Submission, w: SheetWorld): Attempt {
    if !Truthy(env.sheetsId) then
      Settled(NotConfigured(MissingIdMessage), [])
    else if Truthy(env.keyBase64) then
      var loaded := [LoadCredentials(Base64Key)];
      match w.base64
      case ParseFailed(e) => Settled(CredentialError(Base64FailureMessage, e), loaded)
      case Parsed => AppendWith(env, b, w, loaded)
    else if Truthy(env.keyJson) then
      var loaded := [LoadCredentials(JsonKey)];
      match w.json
      case ParseFailed(e) => Settled(CredentialError(JsonFailureMessage, e), loaded)
      case Parsed => AppendWith(env, b, w, loaded)
    else
      Settled(NotConfigured(NoCredentialsMessage), [])
  }

  /** The calls the `try` block makes: none without a spreadsheet id or a credential
      source, then the chosen source, then the append when that source loaded. */
  lemma TryShape(env: Env, b: Submission, w: SheetWorld)
    ensures !Truthy(env.sheetsId) ==> Try(env, b, w) == Settled(NotConfigured(MissingIdMessage), [])
    ensures Truthy(env.sheetsId) && ChosenSource(env).None? ==>
      Try(env, b, w) == Settled(NotConfigured(NoCredentialsMessage), [])
    ensures Truthy(env.sheetsId) && ChosenSource(env).Some? ==>
      var source := ChosenSource(env).value;
      var load := LoadCredentials(source);
      match OutcomeOf(w, source)
      case ParseFailed(e) =>
        Try(env, b, w) == Settled(CredentialError(if source == Base64Key then Base64FailureMessage else JsonFailureMessage, e), [load])
      case Parsed =>
        Try(env, b, w).calls == [load, AppendRow(env.sheetsId.s, Range(env), BuildRow(w.timestamp, b, w.millis))] &&
        (w.append.AppendOk? ==> Try(env, b, w).Settled? && Try(env, b, w).result == Saved(w.append.updatedCells, w.append.updatedRange)) &&
        (w.append.AppendThrew? ==> Try(env, b, w).Caught? && Try(env, b, w).message == w.append.message && Try(env, b, w).code == w.append.code)
  {
  }

  /** `appendToSheet` with its catch block only logging: every append error becomes
      `{success: false, error, details}`, so the result is always a value and never an
      exception. */
  function AppendToSheet(env: Env, b: Submission, w: SheetWorld): (r: SheetRun<SheetResult>)
    // the spreadsheet id is checked before any credential is looked at
    ensures !Truthy(env.sheetsId) ==> r.result == NotConfigured(MissingIdMessage) && r.calls == []
    // with an id, exactly the chosen source is loaded, and no other
    ensures Truthy(env.sheetsId) && ChosenSource(env).Some? ==> |r.calls| >= 1 && r.calls[0] == LoadCredentials(ChosenSource(env).value)
    ensures Count(r.calls, LoadCredentialsKind) <= 1
    ensures Truthy(env.keyBase64) ==> LoadCredentials(JsonKey) !in r.calls
    // a failing source is reported without falling back to the other one
    ensures Truthy(env.sheetsId) && ChosenSource(env).Some? && OutcomeOf(w, ChosenSource(env).value).ParseFailed? ==>
      r.result == CredentialError(
        if ChosenSource(env).value == Base64Key then Base64FailureMessage else JsonFailureMessage,
        OutcomeOf(w, ChosenSource(env).value).message) &&
      |r.calls| == 1
    ensures Truthy(env.sheetsId) && ChosenSource(env).None? ==> r.result == NotConfigured(NoCredentialsMessage) && r.calls == []
    // the append happens at most once, after credentials loaded, with the sixteen-column row
    ensures Count(r.calls, AppendRowKind) <= 1
    ensures Count(r.calls, AppendRowKind) == 1 <==>
      Truthy(env.sheetsId) && ChosenSource(env).Some? && OutcomeOf(w, ChosenSource(env).value).Parsed?
    ensures forall c :: c in r.calls && c.AppendRow? ==>
      c.spreadsheetId == env.sheetsId.s && c.range == Range(env) && c.row == BuildRow(w.timestamp, b, w.millis)
    // success exactly when an append ran and did not throw; a thrown error is reported, not raised
    ensures r.result.Success() <==> Count(r.calls, AppendRowKind) == 1 && w.append.AppendOk?
    ensures Count(r.calls, AppendRowKind) == 1 && w.append.AppendThrew? ==>
      r.result == AppendFailed(w.append.message, w.append.code)
    ensures Count(r.calls, InvokeAppendKind) == 0 && Count(r.calls, SendEmailKind) == 0
  {
    var run := match Try(env, b, w)
      case Settled(res, calls) => SheetRun(res, calls)
      case Caught(m, code, calls) => SheetRun(AppendFailed(m, code), calls);
    TryShape(env, b, w);
    CountShort(run.calls, InvokeAppendKind);
    CountShort(run.calls, SendEmailKind);
    CountShort(run.calls, LoadCredentialsKind);
    CountShort(run.calls, AppendRowKind);
    run
  }

  /** `appendToSheet` as written: for an error whose message mentions missing permission
      the catch block reads `credentials`, which was declared inside the `try` block, and
      the resulting `ReferenceError` escapes the function. */
  function AppendToSheetAsWritten(env: Env, b: Submission, w: SheetWorld): (r: SheetRun<Completion<SheetResult>>)
    ensures r.calls == AppendToSheet(env, b, w).calls
    ensures r.result.Threw? <==>
      Count(r.calls, AppendRowKind) == 1 && w.append.AppendThrew? && Contains(w.append.message, PermissionPhrase)
    ensures r.result.Threw? ==> r.result.message == UndeclaredCredentialsMessage
    ensures r.result.Returned? ==> r.result.value == AppendToSheet(env, b, w).result
  {
    match Try(env, b, w)
    case Settled(res, calls) => SheetRun(Returned(res), calls)
    case Caught(m, code, calls) =>
      if Contains(m, PermissionPhrase) then SheetRun(Threw(UndeclaredCredentialsMessage), calls)
      else SheetRun(Returned(AppendFailed(m, code)), calls)
  }
}
