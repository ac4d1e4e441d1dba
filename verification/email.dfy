/** The notification email the handler sends for a lead: which optional sections
    appear, what the attribution table shows, and the subject line. HTML markup and
    styling are not modelled; each section is represented by the data it displays. */
module Email {
  import opened Wrappers
  import opened Js
  import opened Lead

  const Sender: string := "FlashSpace Virtual Office <onboarding@resend.dev>"
  const SalesInbox: string := "sales@flashspace.co"
  const SubjectPrefix: string := "\U{1F3AF} New Lead: "
  const DirectVisitLabel: string := "Direct Visit"

  /** The lead value the campaign line announces, in rupees. */
  const EstimatedLeadValueRupees: nat := 2500

  datatype TableRow = TableRow(caption: string, value: string)

  /** The marketing-tracking section: the full attribution table, or the
      "Direct Visit (No UTM parameters)" block. */
  datatype Tracking = AttributionTable(rows: seq<TableRow>) | DirectVisit

  /** One line of the attribution table: its label, the `utm` property it shows and
      the text shown when that property is falsy. */
  datatype TableLine = TableLine(caption: string, key: string, fallback: string)

  const TableLayout: seq<TableLine> := [
    TableLine("Campaign", "utm_campaign", "Direct Visit"),
    TableLine("Source", "utm_source", "Direct"),
    TableLine("Medium", "utm_medium", "None"),
    TableLine("Keyword", "utm_term", "N/A"),
    TableLine("Ad Content", "utm_content", "N/A"),
    TableLine("Google Click ID", "gclid", "N/A"),
    TableLine("Landing Page", "landing_page", "N/A"),
    TableLine("Referrer", "referrer", "Direct Visit")
  ]

  /** The contact-details table, each cell as its template literal renders it. */
  datatype Contact = Contact(
    name: string,
    email: string,
    phone: string,
    city: string,
    company: string,
    submitted: string)

  datatype EmailBody = EmailBody(
    location: string,
    sourceBadge: string,
    contact: Contact,
    customerMessage: Option<string>,
    campaignValue: Option<CampaignLine>,
    tracking: Tracking,
    followUpCity: string,
    leadId: string)

  datatype EmailMessage = EmailMessage(
    from: string,
    to: seq<string>,
    replyTo: Value,
    subject: string,
    body: EmailBody)

  /** `utm && Object.values(utm).some(val => val !== '')`: the client sent a `utm`
      object and at least one of its own properties is not the empty string. */
  predicate HasAttribution(utm: Option<UtmObject>) {
    utm.Some? && exists k :: k in utm.value && utm.value[k] != Str("")
  }

  /** `Object.values(m).some(val => val !== '')`, one property at a time. */
  method SomeValueNotEmpty(m: UtmObject) returns (found: bool)
    ensures found <==> exists k :: k in m && m[k] != Str("")
  {
    var pending := m.Keys;
    while pending != {}
      invariant pending <= m.Keys
      invariant forall k :: k in m && k !in pending ==> m[k] == Str("")
      decreases pending
    {
      var k :| k in pending;
      if m[k] != Str("") {
        return true;
      }
      pending := pending - {k};
    }
    return false;
  }

  function AttributionRows(utm: Option<UtmObject>): (rows: seq<TableRow>)
    ensures |rows| == |TableLayout|
    ensures forall i :: 0 <= i < |rows| ==>
      rows[i].caption == TableLayout[i].caption &&
      (Truthy(UtmField(utm, TableLayout[i].key)) ==> rows[i].value == UtmField(utm, TableLayout[i].key).s) &&
      (!Truthy(UtmField(utm, TableLayout[i].key)) ==> rows[i].value == TableLayout[i].fallback)
  {
    seq(|TableLayout|, i requires 0 <= i < |TableLayout| =>
      TableRow(TableLayout[i].caption, OrElse(UtmField(utm, TableLayout[i].key), TableLayout[i].fallback)))
  }

  /** The whole table is shown exactly when the attribution object has a non-empty value;
      each row then shows the client's value, or its fallback when that value is falsy. */
  function TrackingSection(utm: Option<UtmObject>): (t: Tracking)
    ensures t.AttributionTable? <==> HasAttribution(utm)
    ensures t.DirectVisit? <==> !HasAttribution(utm)
    ensures t.AttributionTable? ==> |t.rows| == 8
    ensures t.AttributionTable? ==> t.rows == AttributionRows(utm)
  {
    if HasAttribution(utm) then AttributionTable(AttributionRows(utm)) else DirectVisit
  }

  /** The quoted customer-message block, present exactly when `message` is truthy. */
  function CustomerMessage(message: Value): (block: Option<string>)
    ensures block.Some? <==> Truthy(message)
    ensures block.Some? ==> block.value == message.s && block.value != ""
  {
    if Truthy(message) then Some(message.s) else None
  }

  /** The estimated-lead-value line: the fixed rupee figure and the campaign it is based on. */
  datatype CampaignLine = CampaignLine(rupees: nat, campaign: string)

  /** The estimated-lead-value line, present exactly when `utm.utm_campaign` is truthy;
      it announces the fixed figure and names that campaign. */
  function CampaignValue(utm: Option<UtmObject>): (line: Option<CampaignLine>)
    ensures line.Some? <==> Truthy(UtmField(utm, "utm_campaign"))
    ensures line.Some? ==> line.value == CampaignLine(EstimatedLeadValueRupees, UtmField(utm, "utm_campaign").s)
  {
    var campaign := UtmField(utm, "utm_campaign");
    if Truthy(campaign) then Some(CampaignLine(EstimatedLeadValueRupees, campaign.s)) else None
  }

  /** The campaign named in the subject: `utm?.utm_campaign || 'Direct Visit'`. */
  function CampaignLabel(utm: Option<UtmObject>): (shown: string)
    ensures shown != ""
    ensures Truthy(UtmField(utm, "utm_campaign")) ==> shown == UtmField(utm, "utm_campaign").s
    ensures !Truthy(UtmField(utm, "utm_campaign")) ==> shown == DirectVisitLabel
  {
    OrElse(UtmField(utm, "utm_campaign"), DirectVisitLabel)
  }

  function Subject(b: Submission): string {
    SubjectPrefix + Interpolate(b.name) + " from " + CampaignLabel(b.utm) + " - " + Interpolate(b.city)
  }

  /** The subject mentions the lead's name and the campaign (or "Direct Visit"), and
      ends with the city as the template renders it. */
  lemma SubjectMentions(b: Submission)
    ensures Contains(Subject(b), Interpolate(b.name))
    ensures Contains(Subject(b), CampaignLabel(b.utm))
    ensures Interpolate(b.city) <= Subject(b)[|Subject(b)| - |Interpolate(b.city)|..]
    ensures !Truthy(UtmField(b.utm, "utm_campaign")) ==> Contains(Subject(b), DirectVisitLabel)
  {
    var s := Subject(b);
    ContainsInfix(SubjectPrefix, Interpolate(b.name), " from " + CampaignLabel(b.utm) + " - " + Interpolate(b.city));
    assert s == SubjectPrefix + Interpolate(b.name) + (" from " + CampaignLabel(b.utm) + " - " + Interpolate(b.city));
    ContainsInfix(SubjectPrefix + Interpolate(b.name) + " from ", CampaignLabel(b.utm), " - " + Interpolate(b.city));
    assert s == (SubjectPrefix + Interpolate(b.name) + " from ") + CampaignLabel(b.utm) + (" - " + Interpolate(b.city));
    assert s[|s| - |Interpolate(b.city)|..] == Interpolate(b.city);
  }

  /** A submission without `city` yields a subject ending in the word "undefined". */
  lemma SubjectWithoutCity(b: Submission)
    requires b.city == Undefined
    ensures "undefined" <= Subject(b)[|Subject(b)| - 9..]
  {
    SubjectMentions(b);
  }

  /** Renders the notification for a validated submission. `submittedAt` is the
      client timestamp as `toLocaleString` renders it in Asia/Kolkata and `millis`
      the clock reading taken while the body is built. */
  function Compose(b: Submission, submittedAt: string, millis: nat): (m: EmailMessage)
    ensures m.from == Sender && m.to == [SalesInbox] && m.replyTo == b.email
    ensures m.body.customerMessage.Some? <==> Truthy(b.message)
    ensures m.body.campaignValue.Some? <==> Truthy(UtmField(b.utm, "utm_campaign"))
    ensures m.body.tracking.AttributionTable? <==> HasAttribution(b.utm)
    ensures IsLeadId(m.body.leadId) && LeadMillis(m.body.leadId) == millis
    ensures Contains(m.subject, Interpolate(b.name)) && Contains(m.subject, CampaignLabel(b.utm))
  {
    SubjectMentions(b);
    LeadIdRoundTrip(millis);
    var city := Interpolate(b.city);
    EmailMessage(
      Sender,
      [SalesInbox],
      b.email,
      Subject(b),
      EmailBody(
        city,
        OrElse(UtmField(b.utm, "utm_source"), "Direct"),
        Contact(Interpolate(b.name), Interpolate(b.email), Interpolate(b.phone), city, Interpolate(b.company), submittedAt),
        CustomerMessage(b.message),
        CampaignValue(b.utm),
        TrackingSection(b.utm),
        city,
        LeadId(millis)))
  }

  /** When the client sends only the eight known attribution properties, all as strings,
      the table is shown exactly when one of them is non-empty. */
  lemma AttributionOfKnownFields(utm: UtmObject)
    requires forall k :: k in utm ==> k in UtmKeys && utm[k].Str?
    ensures HasAttribution(Some(utm)) <==> exists i :: 0 <= i < |UtmKeys| && OrEmpty(UtmField(Some(utm), UtmKeys[i])) != ""
  {
    if HasAttribution(Some(utm)) {
      var k :| k in utm && utm[k] != Str("");
      var i :| 0 <= i < |UtmKeys| && UtmKeys[i] == k;
      assert OrEmpty(UtmField(Some(utm), UtmKeys[i])) != "";
    }
    if exists i :: 0 <= i < |UtmKeys| && OrEmpty(UtmField(Some(utm), UtmKeys[i])) != "" {
      var i :| 0 <= i < |UtmKeys| && OrEmpty(UtmField(Some(utm), UtmKeys[i])) != "";
      assert UtmKeys[i] in utm && utm[UtmKeys[i]] != Str("");
    }
  }

  /** A `null` attribution value is not the empty string, so it brings up the full
      table even though every normalised attribution field is empty. */
  lemma NullAttributionShowsTable()
    ensures var utm := Some(map["utm_source" := Null]);
      TrackingSection(utm).AttributionTable? &&
      forall i :: 0 <= i < |UtmKeys| ==> OrEmpty(UtmField(utm, UtmKeys[i])) == ""
  {
    var utm := Some(map["utm_source" := Null]);
    assert "utm_source" in utm.value && utm.value["utm_source"] != Str("");
  }

  /** An empty `utm` object is truthy, but has no values, so the "Direct Visit" block is shown. */
  lemma EmptyAttributionIsDirectVisit()
    ensures TrackingSection(Some(map[])).DirectVisit?
  {
  }
}
