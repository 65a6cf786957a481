/** The compose-email action of the account summary: it needs loaded data, takes the
    server's subject and HTML body, and synthesizes a body client-side when the
    server's one is missing or blank. */
module SummaryCompose {
  import opened Wrappers
  import opened JsText
  import opened Platform
  import opened SummaryData
  import opened SummaryView

  /** `!htmlBody || htmlBody.trim().length === 0`. */
  predicate IsBlankBody(body: Option<string>) {
    body.None? || |Trim(body.value)| == 0
  }

  /** The labels of the four metrics every synthesized body lists. */
  const MetricLabels: seq<string> := ["Open Opportunities", "Pipeline Value", "Active Orders", "Handoffs"]

  const FallbackOpening := "<div" + " style=\"font-family: Arial, sans-serif; line-height: 1.6;\">"
  const Attribution := "Generated by Agentforce Account Summary"
  const FallbackFooter := "<p style=\"color: #706e6b; font-size: 12px;\">" + Attribution + "</p>"

  /** The account line of a synthesized body: the account name, or "Account" when it has none. */
  function FallbackTitle(d: SummaryResult): string {
    "Account Summary: " + OrElse(d.accountName, "Account")
  }

  /** One bulleted metric: label, then value. */
  function MetricItem(name: string, value: string): string {
    "<li><strong>" + name + (":</strong> " + value + "</li>")
  }

  /** The shown value of metric `k`: the counts default to 0 and the pipeline value to "$0". */
  function MetricValue(d: SummaryResult, k: nat): string
    requires k < |MetricLabels|
  {
    if k == 0 then IntToString(OrZero(d.openOpportunities))
    else if k == 1 then OrElse(d.formattedPipelineValue, "$0")
    else if k == 2 then IntToString(OrZero(d.totalOrders))
    else IntToString(OrZero(d.totalHandoffs))
  }

  /** The pieces the synthesized body is built from, in order; optional sections
      that are skipped contribute "". */
  function FallbackParts(d: SummaryResult): (parts: seq<string>)
    ensures |parts| == 15
  {
    [ FallbackOpening,
      "<h2 style=\"color: #0176d3;\">" + FallbackTitle(d) + "</h2>",
      if Truthy(d.accountIndustry) then "<p><strong>Industry:</strong> " + d.accountIndustry.value + "</p>" else "",
      "<h3 style=\"color: #0176d3; margin-top: 20px;\">Key Metrics</h3>",
      "<ul>",
      MetricItem(MetricLabels[0], MetricValue(d, 0)),
      MetricItem(MetricLabels[1], MetricValue(d, 1)),
      MetricItem(MetricLabels[2], MetricValue(d, 2)),
      MetricItem(MetricLabels[3], MetricValue(d, 3)),
      "</ul>",
      if Truthy(d.aiSummary) then "<h3 style=\"color: #0176d3; margin-top: 20px;\">At a Glance</h3>" else "",
      if Truthy(d.aiSummary) then "<p>" + d.aiSummary.value + "</p>" else "",
      "<hr style=\"margin-top: 30px; border: none; border-top: 1px solid #ddd;\">",
      FallbackFooter,
      "</div>" ]
  }

  /** Whatever occurs in one part occurs in the synthesized body. */
  lemma PartInFallback(d: SummaryResult, k: nat, sub: string)
    requires k < 15 && Contains(FallbackParts(d)[k], sub)
    ensures Contains(Concat(FallbackParts(d)), sub)
  {
    ConcatContainsPart(FallbackParts(d), k);
    ContainsTransitive(Concat(FallbackParts(d)), FallbackParts(d)[k], sub);
  }

  /** `generateEmailBodyFallback`: nothing without data; with data, an HTML body
      that opens with a `<div`, so it is never blank. `FallbackBodyContents` states
      what the body carries. */
  function EmailBodyFallback(data: Option<SummaryResult>): (r: string)
    ensures data.None? ==> r == ""
    ensures data.Some? ==> StartsWith(r, "<div") && !IsBlank(r)
  {
    if data.None? then ""
    else
      FallbackOpensWithDiv(data.value);
      Concat(FallbackParts(data.value))
  }

  /** The synthesized body names the account, the four metrics and the attribution,
      plus the industry and the AI summary when the result has them. */
  lemma FallbackBodyContents(d: SummaryResult)
    ensures var body := EmailBodyFallback(Some(d));
      && Contains(body, FallbackTitle(d))
      && (forall k :: 0 <= k < |MetricLabels| ==> Contains(body, MetricLabels[k]))
      && Contains(body, Attribution)
      && (Truthy(d.accountIndustry) ==> Contains(body, d.accountIndustry.value))
      && (Truthy(d.aiSummary) ==> Contains(body, d.aiSummary.value))
  {
    FallbackNamesAccount(d);
    FallbackListsMetrics(d);
    FallbackOptionalSections(d);
  }

  /** The synthesized body opens with `<div`, so it is not blank. */
  lemma FallbackOpensWithDiv(d: SummaryResult)
    ensures StartsWith(Concat(FallbackParts(d)), "<div")
    ensures !IsBlank(Concat(FallbackParts(d)))
  {
    var parts := FallbackParts(d);
    var body := Concat(parts);
    assert StartsWith(body, parts[0]);
    assert parts[0][..4] == "<div";
    assert body[..4] == parts[0][..4];
    StartsWithVisibleNotBlank(body, "<div");
  }

  /** The synthesized body carries the account line and the attribution. */
  lemma FallbackNamesAccount(d: SummaryResult)
    ensures Contains(Concat(FallbackParts(d)), FallbackTitle(d))
    ensures Contains(Concat(FallbackParts(d)), Attribution)
  {
    ContainsSelf(FallbackTitle(d));
    ContainsInside("<h2 style=\"color: #0176d3;\">", FallbackTitle(d), "</h2>", FallbackTitle(d));
    PartInFallback(d, 1, FallbackTitle(d));
    ContainsSelf(Attribution);
    ContainsInside("<p style=\"color: #706e6b; font-size: 12px;\">", Attribution, "</p>", Attribution);
    PartInFallback(d, 13, Attribution);
  }

  /** The metric at position `k` of the synthesized list carries its label. */
  lemma FallbackListsMetric(d: SummaryResult, k: nat)
    requires k < |MetricLabels|
    ensures Contains(Concat(FallbackParts(d)), MetricLabels[k])
  {
    var metric := MetricLabels[k];
    assert FallbackParts(d)[5 + k] == MetricItem(metric, MetricValue(d, k));
    ContainsSelf(metric);
    ContainsInside("<li><strong>", metric, ":</strong> " + MetricValue(d, k) + "</li>", metric);
    PartInFallback(d, 5 + k, metric);
  }

  /** The synthesized body lists all four metric labels. */
  lemma FallbackListsMetrics(d: SummaryResult)
    ensures forall k :: 0 <= k < |MetricLabels| ==> Contains(Concat(FallbackParts(d)), MetricLabels[k])
  {
    forall k | 0 <= k < |MetricLabels|
      ensures Contains(Concat(FallbackParts(d)), MetricLabels[k])
    {
      FallbackListsMetric(d, k);
    }
  }

  /** The synthesized body carries the industry and the AI summary when present. */
  lemma FallbackOptionalSections(d: SummaryResult)
    ensures Truthy(d.accountIndustry) ==> Contains(Concat(FallbackParts(d)), d.accountIndustry.value)
    ensures Truthy(d.aiSummary) ==> Contains(Concat(FallbackParts(d)), d.aiSummary.value)
  {
    if Truthy(d.accountIndustry) {
      var industry := d.accountIndustry.value;
      ContainsSelf(industry);
      ContainsInside("<p><strong>Industry:</strong> ", industry, "</p>", industry);
      PartInFallback(d, 2, industry);
    }
    if Truthy(d.aiSummary) {
      var summary := d.aiSummary.value;
      ContainsSelf(summary);
      ContainsInside("<p>", summary, "</p>", summary);
      PartInFallback(d, 11, summary);
    }
  }

  /** The subject: the server's when it is non-empty, else "Account Summary: "
      followed by the account name as a template literal renders it (an absent name
      reads "undefined"). */
  function EmailSubject(d: SummaryResult): (r: string)
    ensures Truthy(d.emailSubject) ==> r == d.emailSubject.value
    ensures !Truthy(d.emailSubject) && d.accountName.Some? ==> r == "Account Summary: " + d.accountName.value
    ensures !Truthy(d.emailSubject) && d.accountName.None? ==> r == "Account Summary: undefined"
    ensures !Truthy(d.emailSubject) ==> StartsWith(r, "Account Summary: ")
  {
    OrElse(d.emailSubject, "Account Summary: " + Interpolate(d.accountName))
  }

  /** The body the composer opens with: the server's unless it is blank, else the
      synthesized one; never blank. */
  function ComposeBody(d: SummaryResult): (r: string)
    ensures !IsBlankBody(d.emailBody) ==> r == d.emailBody.value
    ensures IsBlankBody(d.emailBody) ==> r == EmailBodyFallback(Some(d)) && StartsWith(r, "<div")
    ensures !IsBlank(r)
  {
    var body := if IsBlankBody(d.emailBody) then EmailBodyFallback(Some(d)) else d.emailBody.value;
    TrimEmptyIffBlank(body);
    body
  }

  /** The composed body still has content after `trim`, so the component's final
      blank-body guard never fires once data is loaded. */
  lemma ComposedBodySurvivesTrim(d: SummaryResult)
    ensures !IsBlankBody(Some(ComposeBody(d)))
  {
    TrimEmptyIffBlank(ComposeBody(d));
  }

  function NoSummaryToast(): Toast {
    StickyErrorToast("No Summary Available", "Please generate a summary first before composing an email.")
  }

  /** `handleCompose`: without data it toasts and stays put; with data it navigates
      exactly once, to the send-email action for this record, with the subject and a
      body that is never blank. */
  function HandleCompose(s: SummaryState): (effects: seq<Effect>)
    ensures Navigates(effects) <==> s.data.Some?
    ensures s.data.None? ==> effects == [ShowToast(NoSummaryToast())]
    ensures s.data.Some? ==>
      effects == [Navigate(QuickAction("Global.SendEmail", s.recordId, EmailSubject(s.data.value), ComposeBody(s.data.value)))]
  {
    if s.data.None? then [ShowToast(NoSummaryToast())]
    else
      var d := s.data.value;
      var subject := EmailSubject(d);
      var htmlBody := if IsBlankBody(d.emailBody) then EmailBodyFallback(s.data) else d.emailBody.value;
      assert htmlBody == ComposeBody(d);
      TrimEmptyIffBlank(htmlBody);
      if IsBlankBody(Some(htmlBody)) then
        [ShowToast(StickyErrorToast("Email Content Error", "Unable to generate email content. Please try refreshing the summary."))]
      else
        var effects := [Navigate(QuickAction("Global.SendEmail", s.recordId, subject, htmlBody))];
        assert IsNavigation(effects[0]);
        effects
  }
}
