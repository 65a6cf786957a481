# Account summary and handoff visualization, modelled in Dafny

This project models the view-model logic of two Lightning Web Components.

- **Account summary** (`accountSummary.js`) asks a server action for an AI summary of an account and renders it. Modelled here:
  - the presentation rules: status, stage, probability, priority and date classes, relative-day wording, handoff progress and note truncation;
  - the per-list projections of the server's rows;
  - the summarize / retry / refresh / teardown state machine, including the interval timer that rotates a status phrase while loading;
  - the compose-email decision, with its client-side fallback HTML body.
- **Handoff visualization** (`handoffVisualization.js`) shows one engineering handoff. It reads the handoff record, then the handoff's order, then the order's account and contact. Modelled here:
  - that four-step read cascade, as a state machine;
  - the field getters with their empty-string fallbacks;
  - the two section gates;
  - the case-insensitive badge mappings;
  - navigation to the account and contact pages.

Platform services are not called; they appear as values:

- Toasts, navigations and the server call are `Platform.Effect` values that a transition emits.
- The server call's completion is a `SummaryView.RemoteOutcome` input: a returned result with its `success` flag, or a thrown fault.
- Each record read's completion is a `HandoffView.WireResult` input.

An asynchronous completion is one atomic transition. For the summarize flow, `BeginSummarize` covers the work before the `await` and `CompleteSummarize` the work after it.

JavaScript semantics the code depends on are written out in `JsText`:

- truthiness and `||` on possibly-null strings;
- template interpolation of an absent field, which gives `undefined` (null is not told apart; see below);
- decimal rendering of integers, with its inverse;
- ASCII `toLowerCase`;
- `trim`, over the ECMAScript whitespace set;
- substring containment.

`Math.round(n / m)` is rounding to nearest with halves up. It is modelled exactly as `(2n + m) / (2m)`, and lemmas reduce it to `(d + 3) / 7` and `(d + 15) / 30`.

Modules:

| module | file | contents |
|---|---|---|
| `Wrappers` | wrappers.dfy | `Option` |
| `JsText` | js_text.dfy | JavaScript string and number semantics |
| `Platform` | platform.dfy | toasts, page references, effects |
| `SummaryData` | summary_data.dfy | the server result's shape |
| `SummaryFormat` | summary_format.dfy | the pure presentation rules |
| `SummaryProjection` | summary_projection.dfy | the `processed*` getters |
| `SummaryView` | summary_view.dfy | the summarize state machine |
| `SummaryCompose` | summary_compose.dfy | `handleCompose` and the fallback body |
| `HandoffBadges` | handoff_badges.dfy | the badge mappings |
| `HandoffView` | handoff_view.dfy | the read cascade, getters and navigation |

## Model

Paths are relative to the repository root. `accountSummary.js` is `force-app/main/default/lwc/accountSummary/accountSummary.js`; `handoffVisualization.js` sits next to it in `lwc/handoffVisualization/`.

| member | source | states |
|---|---|---|
| SummaryFormat.StatusClass | force-app/main/default/lwc/accountSummary/accountSummary.js:122-131 | a known variant maps to "badge-" plus the variant; any other key, the empty one included, falls to "badge-default" |
| SummaryFormat.StageClass | force-app/main/default/lwc/accountSummary/accountSummary.js:133-142 | a known variant maps to "stage-" plus the variant; any other key falls to "stage-default" |
| SummaryFormat.ProbabilityClass | force-app/main/default/lwc/accountSummary/accountSummary.js:144-148 | "prob-high" exactly when p >= 75, "prob-medium" exactly when 50 <= p < 75, "prob-low" exactly when p < 50 |
| SummaryFormat.PriorityClass | force-app/main/default/lwc/accountSummary/accountSummary.js:150-157 | high, medium and low map to their own class; an absent or unknown priority reads as "priority-low" |
| SummaryFormat.DateClass | force-app/main/default/lwc/accountSummary/accountSummary.js:159-166 | "date-overdue" exactly for error, "date-soon" exactly for warning, "" for every other variant |
| SummaryFormat.RoundDivNearest | force-app/main/default/lwc/accountSummary/accountSummary.js:174-175 | the rounded quotient lies within half a divisor of n/m, and exact halves round up, as `Math.round` does |
| SummaryFormat.RoundDivBy7 | force-app/main/default/lwc/accountSummary/accountSummary.js:174 | rounding d/7 equals (d + 3) / 7 |
| SummaryFormat.RoundDivBy30 | force-app/main/default/lwc/accountSummary/accountSummary.js:175 | rounding d/30 equals (d + 15) / 30 |
| SummaryFormat.DaysText | force-app/main/default/lwc/accountSummary/accountSummary.js:168-176 | empty exactly when the opportunity is closed; otherwise the full table: "N days overdue", Today, Tomorrow, "N days" for 2..7, rounded weeks for 8..30, rounded months beyond |
| SummaryFormat.DaysTextUnitsNearest | force-app/main/default/lwc/accountSummary/accountSummary.js:174-175 | the week count for 8..30 days is 1..4 and within 3 days of the true value; the month count beyond 30 days is at least 1 and within half a month |
| SummaryFormat.OrderDaysText | force-app/main/default/lwc/accountSummary/accountSummary.js:178-185 | empty exactly when the offset is absent or more than 14 days away; otherwise "N days ago", Today, Tomorrow or "In N days" |
| SummaryFormat.ProgressPercent | force-app/main/default/lwc/accountSummary/accountSummary.js:89 | the nearest whole percent of step/7, i.e. (100 * step + 3) / 7; in 0..100 for steps 0..7; 0 at step 0 and 100 at step 7 |
| SummaryFormat.ProgressPercentMonotone | force-app/main/default/lwc/accountSummary/accountSummary.js:89 | more completed steps never show less progress |
| SummaryFormat.TruncateNotes | force-app/main/default/lwc/accountSummary/accountSummary.js:97 | absent or empty notes show ""; notes of at most 100 characters pass unchanged; longer ones become their first 100 characters plus "..."; at most 103 characters |
| SummaryFormat.TruncateNotesIdempotent | force-app/main/default/lwc/accountSummary/accountSummary.js:97 | truncating shown notes again changes nothing |
| SummaryFormat.HasEngineeringNotes | force-app/main/default/lwc/accountSummary/accountSummary.js:96 | the notes flag is set exactly when the truncated notes are non-empty, i.e. false exactly for absent or empty notes |
| SummaryProjection.CloseDateClass | force-app/main/default/lwc/accountSummary/accountSummary.js:71 | overdue wins over closing soon; "" exactly when neither holds |
| SummaryProjection.ProcessedOpportunities | force-app/main/default/lwc/accountSummary/accountSummary.js:63-74 | no data gives no rows; otherwise one row per opportunity, in order, carrying the source row with its status and stage classes, probability band, "width: N%" style, close-date class and day text, each by the rule above |
| SummaryProjection.ProcessedOrders | force-app/main/default/lwc/accountSummary/accountSummary.js:76-84 | no data gives no rows; otherwise one row per order, in order, with its status class, "date-soon" exactly when effective soon and "" otherwise, and its day text |
| SummaryProjection.ProcessedHandoffs | force-app/main/default/lwc/accountSummary/accountSummary.js:86-100 | no data gives no rows; otherwise one row per handoff, in order, with its status and peer-review classes, progress percent (in 0..100 for steps 0..7) and its "width: N%" style, truncated notes (at most 103 characters), and the notes flag, set exactly when notes are shown |
| SummaryProjection.ProcessedActionItems | force-app/main/default/lwc/accountSummary/accountSummary.js:102-110 | no data gives no rows; otherwise one row per action item, in order, keyed "action-i", with its priority badge class and item class "action-item " plus the interpolated priority plus "-priority" |
| SummaryProjection.ProcessedKeyDates | force-app/main/default/lwc/accountSummary/accountSummary.js:112-120 | no data gives no rows; otherwise min(n, 5) rows: the first key dates in order, keyed "date-i", with their date class, the opportunity icon on opportunity rows and the orders icon on every other row |
| SummaryProjection.ActionItemKeysDistinct | force-app/main/default/lwc/accountSummary/accountSummary.js:104-106 | no two rendered action items share a key |
| SummaryProjection.KeyDateKeysDistinct | force-app/main/default/lwc/accountSummary/accountSummary.js:114-116 | no two rendered key dates share a key |
| SummaryView.Init | force-app/main/default/lwc/accountSummary/accountSummary.js:11-18 | the freshly rendered component is in a reachable state and shows the initial prompt, for the given record id, with no message, no phrase, no timer and no call in flight |
| SummaryView.FailureMessage | force-app/main/default/lwc/accountSummary/accountSummary.js:224-233 | a domain failure shows the result's message, else "An unknown error occurred."; a thrown fault shows its body message, else its message, else "An unexpected error occurred."; never empty |
| SummaryView.StartFlavorTextRotation | force-app/main/default/lwc/accountSummary/accountSummary.js:187-198 | shows the first phrase and holds a new timer; the previously held timer is cancelled, so exactly one timer runs afterwards; the record id, the calls in flight and the error message are kept |
| SummaryView.StopFlavorTextRotation | force-app/main/default/lwc/accountSummary/accountSummary.js:200-206 | blanks the phrase; from a reachable state no timer is left running or held; the data, flags, message, record id, calls in flight and next handle are kept |
| SummaryView.TimerFired | force-app/main/default/lwc/accountSummary/accountSummary.js:194-197 | a firing of a running timer shows the phrase at its index and changes nothing else; a cancelled timer changes nothing |
| SummaryView.BeginSummarize | force-app/main/default/lwc/accountSummary/accountSummary.js:208-217 | enters loading with no error, data or message, showing the first phrase, with exactly one timer running, and issues the server call for this record, keeping the record id |
| SummaryView.CompleteSummarize | force-app/main/default/lwc/accountSummary/accountSummary.js:216-237 | answers one call in flight, whether or not another is pending; leaves loading with a blank phrase and no timer; success stores the result and shows a success toast, keeping any earlier error flag and message; a failure sets the error flag and the fallback message and shows a sticky error toast; the record id is kept |
| SummaryView.HandleSummarize | force-app/main/default/lwc/accountSummary/accountSummary.js:208-238 | afterwards not loading and no timer; data is present exactly on success and is the result; the error flag is set exactly on failure, with the fallback message; exactly the server call and then the success toast, or the sticky "Error" toast with the fallback message; no navigation; the record id and the count of calls in flight are kept |
| SummaryView.HandleRetry | force-app/main/default/lwc/accountSummary/accountSummary.js:240-242 | retrying ends as summarizing does: data exactly on success, error exactly on failure |
| SummaryView.HandleRefresh | force-app/main/default/lwc/accountSummary/accountSummary.js:244-248 | dropping data and stopping the rotation first makes no difference: refresh ends exactly as summarize from the same state |
| SummaryView.Disconnected | force-app/main/default/lwc/accountSummary/accountSummary.js:346-348 | teardown leaves no timer running and blanks the phrase; it keeps the data, the flags, the error message, the record id and the count of calls in flight |
| SummaryView.ViewsPartition | force-app/main/default/lwc/accountSummary/accountSummary.js:35-41 | in a reachable state the initial and results views are never both shown; outside loading and error exactly one of them is; results show only successful data |
| SummaryView.OverlappingFailureKeepsData | force-app/main/default/lwc/accountSummary/accountSummary.js:208-237 | when an earlier request fails after a later one succeeded, the error flag and message are set while the later result stays loaded, so the error view shows instead of the results |
| SummaryView.OverlappingSuccessKeepsError | force-app/main/default/lwc/accountSummary/accountSummary.js:208-237 | when an earlier request succeeds after a later one failed, the new result is loaded while the error flag and message stay set, so the error view still shows |
| SummaryView.NextPreservesWf | force-app/main/default/lwc/accountSummary/accountSummary.js:187-248 | every event keeps the component in a reachable state, including a completion that arrives after a later request has already been answered |
| SummaryView.RunPreservesWf | force-app/main/default/lwc/accountSummary/accountSummary.js:187-248 | over any sequence of events, overlapping requests included, at most one timer runs, and none outside loading |
| SummaryCompose.EmailBodyFallback | force-app/main/default/lwc/accountSummary/accountSummary.js:298-328 | no data gives ""; with data, a body that starts with "<div" and is therefore never blank |
| SummaryCompose.FallbackBodyContents | force-app/main/default/lwc/accountSummary/accountSummary.js:302-324 | the synthesized body contains the account line, the four metric labels and the attribution, plus the industry and the AI summary when present |
| SummaryCompose.FallbackOpensWithDiv | force-app/main/default/lwc/accountSummary/accountSummary.js:301 | the synthesized body starts with "<div" and is not blank |
| SummaryCompose.FallbackNamesAccount | force-app/main/default/lwc/accountSummary/accountSummary.js:302-324 | the synthesized body contains "Account Summary: " with the name (or "Account") and the attribution line |
| SummaryCompose.FallbackListsMetric | force-app/main/default/lwc/accountSummary/accountSummary.js:311-314 | a metric item carries its label into the body |
| SummaryCompose.FallbackListsMetrics | force-app/main/default/lwc/accountSummary/accountSummary.js:309-315 | all four metric labels occur in the body |
| SummaryCompose.FallbackOptionalSections | force-app/main/default/lwc/accountSummary/accountSummary.js:304-321 | a present industry and a present AI summary occur in the body |
| SummaryCompose.EmailSubject | force-app/main/default/lwc/accountSummary/accountSummary.js:257 | the server's subject when non-empty, else "Account Summary: " followed by the account name, or by "undefined" when the name is absent |
| SummaryCompose.ComposeBody | force-app/main/default/lwc/accountSummary/accountSummary.js:258-264 | a server body that is not blank after trimming is used verbatim, else the synthesized one; the result never consists only of whitespace |
| SummaryCompose.ComposedBodySurvivesTrim | force-app/main/default/lwc/accountSummary/accountSummary.js:266-270 | the composed body is non-empty after `trim`, so the final content guard never rejects it |
| SummaryCompose.HandleCompose | force-app/main/default/lwc/accountSummary/accountSummary.js:250-296 | navigates exactly when data is loaded: without data, only the "No Summary Available" toast; with data, one send-email navigation for this record with the subject and a never-blank body |
| HandoffBadges.StatusBadgeVariant | force-app/main/default/lwc/handoffVisualization/handoffVisualization.js:194-204 | the lower-cased status is looked up in the seven-entry table, and everything unlisted (the empty status included) is "default" |
| HandoffBadges.PeerReviewBadgeVariant | force-app/main/default/lwc/handoffVisualization/handoffVisualization.js:206-211 | success exactly for "pass", error exactly for "fail", in any letter case; warning for everything else |
| HandoffBadges.BadgesIgnoreCase | force-app/main/default/lwc/handoffVisualization/handoffVisualization.js:195-207 | lower-casing a status first never changes either badge |
| HandoffBadges.CompleteInAnyCaseIsSuccess | force-app/main/default/lwc/handoffVisualization/handoffVisualization.js:196 | "Complete" and "complete" are both success |
| HandoffBadges.UnlistedStatusesExamples | force-app/main/default/lwc/handoffVisualization/handoffVisualization.js:203-210 | an unlisted status and the empty status are default; an empty peer-review status is warning; "FAIL" is error |
| HandoffView.Init | force-app/main/default/lwc/handoffVisualization/handoffVisualization.js:59-66 | the view starts loading on the given record id with no handoff and no dependent id, and satisfies the cascade invariant |
| HandoffView.WiredHandoff | force-app/main/default/lwc/handoffVisualization/handoffVisualization.js:68-78 | the order id changes only on handoff data and then comes from it; data or error ends loading; an error only toasts ("Unknown error" when it has no message) and leaves the order id unchanged; a callback with neither data nor error changes nothing; the record id and the account and contact ids are kept |
| HandoffView.WiredOrder | force-app/main/default/lwc/handoffVisualization/handoffVisualization.js:80-90 | the account and contact ids change only on order data and then come from it; an error keeps all stored data and ids, and ends loading exactly when an order id is set; the record id is kept |
| HandoffView.WiredAccount | force-app/main/default/lwc/handoffVisualization/handoffVisualization.js:92-99 | data stores the account; an error changes nothing |
| HandoffView.WiredContact | force-app/main/default/lwc/handoffVisualization/handoffVisualization.js:101-108 | data stores the contact; an error changes nothing |
| HandoffView.NextKeepsCascade | force-app/main/default/lwc/handoffVisualization/handoffVisualization.js:68-108 | each read keeps every dependent id equal to its parent record's field, and each resolved record's parent resolved; loading never restarts |
| HandoffView.RunKeepsCascade | force-app/main/default/lwc/handoffVisualization/handoffVisualization.js:68-108 | the same over any sequence of reads |
| HandoffView.DependentsNeedParents | force-app/main/default/lwc/handoffVisualization/handoffVisualization.js:68-90 | no dependent id is set before its parent record resolved; without the handoff, every dependent id and record is absent |
| HandoffView.OrderErrorChangesNothing | force-app/main/default/lwc/handoffVisualization/handoffVisualization.js:80-90 | in a reachable view an order read without data changes nothing: whenever an order id is set, loading has already ended |
| HandoffView.HandoffFailureStopsCascade | force-app/main/default/lwc/handoffVisualization/handoffVisualization.js:68-90 | while the handoff read never delivers data, no dependent id or record ever appears; after a handoff error, loading stays ended |
| HandoffView.HandoffText | force-app/main/default/lwc/handoffVisualization/handoffVisualization.js:110-184 | every handoff-backed getter returns the field's value when it is non-empty and "" otherwise, including while the handoff is absent |
| HandoffView.RelatedText | force-app/main/default/lwc/handoffVisualization/handoffVisualization.js:114-132 | the account, contact and order getters give "" while their record is absent, and the field's raw value once it resolved |
| HandoffView.HasSpecData | force-app/main/default/lwc/handoffVisualization/handoffVisualization.js:186-188 | truthy exactly when voltage, amperage, enclosure or connector type is non-empty; the value is then one of those four, and voltage whenever voltage is set |
| HandoffView.HasCustomerContext | force-app/main/default/lwc/handoffVisualization/handoffVisualization.js:190-192 | truthy exactly when the account name or the contact name is non-empty |
| HandoffView.StatusBadge | force-app/main/default/lwc/handoffVisualization/handoffVisualization.js:194-204 | the status badge of the shown handoff, "default" while the handoff is absent |
| HandoffView.PeerReviewBadge | force-app/main/default/lwc/handoffVisualization/handoffVisualization.js:206-211 | the peer-review badge, "warning" while the peer-review status is absent or empty |
| HandoffView.RecordPageIfSet | force-app/main/default/lwc/handoffVisualization/handoffVisualization.js:222-244 | navigates exactly when the id is set, and then once to that record's view page |
| HandoffView.NavigateToAccount | force-app/main/default/lwc/handoffVisualization/handoffVisualization.js:222-232 | no effect while the account id is unset, else one navigation to it; under the cascade invariant that needs the order resolved |
| HandoffView.NavigateToContact | force-app/main/default/lwc/handoffVisualization/handoffVisualization.js:234-244 | no effect while the contact id is unset, else one navigation to it; under the cascade invariant that needs the order resolved |
| JsText.ParseNatToString | force-app/main/default/lwc/accountSummary/accountSummary.js:170-175 | the decimal rendering of a day count reads back as that count, so distinct counts render distinctly |
| JsText.ParseIntToString | force-app/main/default/lwc/accountSummary/accountSummary.js:70 | the rendering of a possibly negative integer reads back as that integer |
| JsText.ToLowerIdempotent | force-app/main/default/lwc/handoffVisualization/handoffVisualization.js:195 | lower-casing twice is lower-casing once |
| JsText.TrimEmptyIffBlank | force-app/main/default/lwc/accountSummary/accountSummary.js:261 | a string trims to empty exactly when it consists only of whitespace |

## Left out

- Platform services appear only as emitted effects and input outcomes. The toast event, the navigation service, the default-value encoding of the send-email action, the record-read adapters and the server action are not modelled. The send-email page reference carries the subject and body unencoded.
- Asynchrony and reactive re-invocation of the record reads: each completion is one atomic transition. Overlapping summarize requests are modelled: `pendingCalls` counts the calls in flight, and their completions may arrive in any order. For the record reads, the service's contract is taken as a precondition on the cascade (`HandoffView.Provisioned`): a read only delivers data while its key holds a record id.
- `Math.random` and the timer delay: the rotated phrase's index is an input in 0..7, and a timer is a handle with no period.
- Non-integer numbers: day offsets, probabilities, steps and counts are integers. Formatting of fractional numbers and NaN is not modelled.
- `toLowerCase` is ASCII-only; non-ASCII letters are kept unchanged.
- `console.*` logging, the icon resource URL and the exact markup of the fallback email. The fallback is modelled part by part, but its contract states only the prefix, non-blankness and the presence of the account line, labels, attribution and optional sections.
- The `has*` list getters (`hasOpportunities` and the rest), `navigateToRecord` of the account summary, and the `handleAccountClick` / `handleContactClick` DOM wrappers are thin template glue around modelled members.
- A result object that is itself null, and object-literal lookups with inherited keys such as "constructor": the lookups treat every key outside the table as unknown.
- `getFieldValue` on an absent record is modelled as undefined, and a field missing from a record as undefined.
- SummaryView.HandleRetry: its contract states only the outcome flags; the full contract is that of `HandleSummarize`, which it calls.
- SummaryCompose.HandleCompose: the "Email Content Error" branch of the source is kept but unreachable. `ComposeBody` is never blank, so with data present the component always navigates.
- SummaryFormat.TruncateNotes: lengths are counted and notes are cut in Unicode code points, while JavaScript's `length` and `substring` count UTF-16 code units. Notes with characters outside the Basic Multilingual Plane are cut later in the model than in the source. A cut through a surrogate pair cannot be represented at all, because a Dafny character is a Unicode scalar value.
- SummaryProjection.ProcessedHandoffs: the note length bound of 103 is in code points for the same reason.
- JsText.Interpolate: `None` stands for both `null` and `undefined`, and interpolation renders it as "undefined". A field the server sends as `null` renders as "null" in the source. This affects an action item's class (`"action-item null-priority"`) and the default subject.
- SummaryCompose.EmailSubject: a `null` account name gives "Account Summary: undefined" here, where the source shows "Account Summary: null".
- SummaryProjection.ProcessedActionItems: a `null` priority gives the item class "action-item undefined-priority" here, for the reason above.
- JsText.IntToString: integers are unbounded. JavaScript numbers lose precision above 2^53 and print in exponent form from 10^21 up; counts, day offsets and percentages that large are not modelled.
