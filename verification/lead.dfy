/** The lead submission read from the request body, its marketing attribution
    object, the process configuration, and the `FS-<millis>` lead identifier. */
module Lead {
  import opened Wrappers
  import opened Js
  import opened Decimal

  /** The `utm` object exactly as the client sent it: every own property and its value,
      including keys outside the eight the server knows about. */
  type UtmObject = map<string, Value>

  /** The destructured request body of `POST /api/send-email`. `utm` is `None` when it
      is missing or `null`. */
  datatype Submission = Submission(
    name: Value,
    email: Value,
    phone: Value,
    city: Value,
    company: Value,
    message: Value,
    utm: Option<UtmObject>,
    timestamp: Value,
    userAgent: Value)

  /** The eight attribution fields, in the order they occupy spreadsheet columns H to O. */
  const UtmKeys: seq<string> :=
    ["utm_source", "utm_medium", "utm_campaign", "utm_term",
     "utm_content", "gclid", "referrer", "landing_page"]

  /** `utm?.[key]`: undefined when there is no object or no such property. */
  function UtmField(utm: Option<UtmObject>, key: string): Value {
    if utm.Some? && key in utm.value then utm.value[key] else Undefined
  }

  /** The validation the handler applies: both `name` and `email` truthy. */
  predicate HasRequiredFields(b: Submission) {
    Truthy(b.name) && Truthy(b.email)
  }

  /** Process configuration read from the environment; unset variables are `Undefined`. */
  datatype Env = Env(
    resendApiKey: Value,
    sheetsId: Value,
    sheetName: Value,
    keyBase64: Value,
    keyJson: Value)

  const PlaceholderApiKey: string := "re_your_api_key_here"

  /** The email provider key is set, non-empty and not the placeholder from the sample configuration. */
  predicate EmailKeyConfigured(env: Env) {
    Truthy(env.resendApiKey) && env.resendApiKey.s != PlaceholderApiKey
  }

  const LeadIdPrefix: string := "FS-"

  /** `FS-${Date.now()}` for a clock reading of `millis`. */
  function LeadId(millis: nat): (id: string)
    ensures LeadIdPrefix <= id && IsDigits(id[|LeadIdPrefix|..])
    ensures |id| > |LeadIdPrefix|
  {
    LeadIdPrefix + DecimalString(millis)
  }

  /** The shape of a lead identifier: the prefix followed by at least one digit. */
  predicate IsLeadId(s: string) {
    |s| > |LeadIdPrefix| && LeadIdPrefix <= s && IsDigits(s[|LeadIdPrefix|..])
  }

  /** The clock reading a well-formed lead identifier encodes. */
  function LeadMillis(s: string): nat
    requires IsLeadId(s)
  {
    DecimalValue(s[|LeadIdPrefix|..])
  }

  /** Every generated identifier is well formed and gives back the clock reading it was made from. */
  lemma LeadIdRoundTrip(millis: nat)
    ensures IsLeadId(LeadId(millis))
    ensures LeadMillis(LeadId(millis)) == millis
  {
    var id := LeadId(millis);
    assert id[|LeadIdPrefix|..] == DecimalString(millis);
    DecimalRoundTrip(millis);
  }

  /** Two identifiers coincide exactly when they were generated in the same millisecond. */
  lemma LeadIdCollision(a: nat, b: nat)
    ensures LeadId(a) == LeadId(b) <==> a == b
  {
    LeadIdRoundTrip(a);
    LeadIdRoundTrip(b);
  }
}
