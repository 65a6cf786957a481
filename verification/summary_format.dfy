/** The account summary's pure presentation rules: variant and priority lookups,
    probability bands, relative-day wording, and the handoff progress and notes
    derivations. */
module SummaryFormat {
  import opened Wrappers
  import opened JsText

  // ---------------------------------------------------------------------------
  // Lookup tables
  // ---------------------------------------------------------------------------

  /** `table[key] || fallback` on an object literal: the fallback applies when the
      key is missing or maps to the empty string. */
  function LookupOr(table: map<string, string>, key: string, fallback: string): string {
    if key in table && table[key] != "" then table[key] else fallback
  }

  /** The variant names the server uses for status tags. */
  const Variants: set<string> := {"success", "error", "warning", "info", "default"}

  /** Badge class of a status variant. */
  function StatusClass(variant: string): (r: string)
    ensures variant in Variants ==> r == "badge-" + variant
    ensures variant !in Variants ==> r == "badge-default"
  {
    var classes := map[
      "success" := "badge-success",
      "error" := "badge-error",
      "warning" := "badge-warning",
      "info" := "badge-info",
      "default" := "badge-default"];
    LookupOr(classes, variant, "badge-default")
  }

  /** Stage badge class of an opportunity's stage variant. */
  function StageClass(badgeClass: string): (r: string)
    ensures badgeClass in Variants ==> r == "stage-" + badgeClass
    ensures badgeClass !in Variants ==> r == "stage-default"
  {
    var classes := map[
      "success" := "stage-success",
      "error" := "stage-error",
      "warning" := "stage-warning",
      "info" := "stage-info",
      "default" := "stage-default"];
    LookupOr(classes, badgeClass, "stage-default")
  }

  /** Probability band: exactly one of high (75 and up), medium (50 to 74) and low. */
  function ProbabilityClass(probability: int): (r: string)
    ensures r == "prob-high" <==> probability >= 75
    ensures r == "prob-medium" <==> 50 <= probability < 75
    ensures r == "prob-low" <==> probability < 50
  {
    if probability >= 75 then "prob-high"
    else if probability >= 50 then "prob-medium"
    else "prob-low"
  }

  const Priorities: set<string> := {"high", "medium", "low"}

  /** Badge class of an action item's priority; absent or unknown priorities read as low. */
  function PriorityClass(priority: Option<string>): (r: string)
    ensures priority.Some? && priority.value in Priorities ==> r == "priority-" + priority.value
    ensures !(priority.Some? && priority.value in Priorities) ==> r == "priority-low"
  {
    var classes := map["high" := "priority-high", "medium" := "priority-medium", "low" := "priority-low"];
    if priority.Some? then LookupOr(classes, priority.value, "priority-low") else "priority-low"
  }

  /** Date class of a key date's variant: overdue for errors, soon for warnings, none otherwise. */
  function DateClass(variant: string): (r: string)
    ensures r == "date-overdue" <==> variant == "error"
    ensures r == "date-soon" <==> variant == "warning"
    ensures r == "" <==> variant != "error" && variant != "warning"
  {
    var classes := map["error" := "date-overdue", "warning" := "date-soon", "default" := ""];
    LookupOr(classes, variant, "")
  }

  // ---------------------------------------------------------------------------
  // Rounding
  // ---------------------------------------------------------------------------

  /** `Math.round(n / m)`: floor(n/m + 1/2), so exact halves round up. */
  function RoundDiv(n: int, m: int): int
    requires m > 0
  {
    (2 * n + m) / (2 * m)
  }

  /** `RoundDiv` picks the nearest integer, breaking ties upwards:
      n/m - 1/2 < q <= n/m + 1/2. */
  lemma RoundDivNearest(n: int, m: int)
    requires m > 0
    ensures -m <= 2 * (n - m * RoundDiv(n, m)) < m
  {
    var k := 2 * n + m;
    var q := k / (2 * m);
    assert k == (2 * m) * q + k % (2 * m);
    assert 2 * (n - m * q) == k % (2 * m) - m;
  }

  /** Rounding a seventh: the integer form (n + 3) / 7. */
  lemma RoundDivBy7(n: int)
    ensures RoundDiv(n, 7) == (n + 3) / 7
  {
    var q := RoundDiv(n, 7);
    RoundDivNearest(n, 7);
    assert 7 * q <= n + 3 < 7 * q + 7;
  }

  /** Rounding a thirtieth: the integer form (n + 15) / 30. */
  lemma RoundDivBy30(n: int)
    ensures RoundDiv(n, 30) == (n + 15) / 30
  {
    var q := RoundDiv(n, 30);
    RoundDivNearest(n, 30);
    assert 30 * q <= n + 15 < 30 * q + 30;
  }

  // ---------------------------------------------------------------------------
  // Relative-day wording
  // ---------------------------------------------------------------------------

  /** Text for an opportunity closing `days` from today; closed opportunities get none. */
  function DaysText(days: int, isClosed: bool): (r: string)
    ensures r == "" <==> isClosed
    ensures !isClosed && days < 0 ==> r == NatToString(-days) + " days overdue"
    ensures !isClosed && days == 0 ==> r == "Today"
    ensures !isClosed && days == 1 ==> r == "Tomorrow"
    ensures !isClosed && 2 <= days <= 7 ==> r == NatToString(days) + " days"
    ensures !isClosed && 8 <= days <= 30 ==> r == NatToString((days + 3) / 7) + " weeks"
    ensures !isClosed && days > 30 ==> r == NatToString((days + 15) / 30) + " months"
  {
    if isClosed then ""
    else if days < 0 then NatToString(-days) + " days overdue"
    else if days == 0 then "Today"
    else if days == 1 then "Tomorrow"
    else if days <= 7 then NatToString(days) + " days"
    else if days <= 30 then RoundDivBy7(days); NatToString(RoundDiv(days, 7)) + " weeks"
    else RoundDivBy30(days); NatToString(RoundDiv(days, 30)) + " months"
  }

  /** The week count shown for 8 to 30 days is the nearest whole number of weeks
      (1 to 4), and the month count shown beyond 30 days is the nearest whole number
      of months (at least 1). */
  lemma DaysTextUnitsNearest(days: int)
    ensures 8 <= days <= 30 ==>
      var w := (days + 3) / 7; 1 <= w <= 4 && 7 * w - 3 <= days <= 7 * w + 3
    ensures days > 30 ==>
      var mo := (days + 15) / 30; 1 <= mo && 30 * mo - 15 <= days <= 30 * mo + 14
  {
    RoundDivBy7(days);
    RoundDivNearest(days, 7);
    RoundDivBy30(days);
    RoundDivNearest(days, 30);
  }

  /** Text for an order becoming effective `days` from today; nothing when unknown or more than two weeks out. */
  function OrderDaysText(days: Option<int>): (r: string)
    ensures r == "" <==> days.None? || days.value > 14
    ensures days.Some? && days.value < 0 ==> r == NatToString(-days.value) + " days ago"
    ensures days == Some(0) ==> r == "Today"
    ensures days == Some(1) ==> r == "Tomorrow"
    ensures days.Some? && 2 <= days.value <= 14 ==> r == "In " + NatToString(days.value) + " days"
  {
    if days.None? then ""
    else if days.value < 0 then NatToString(-days.value) + " days ago"
    else if days.value == 0 then "Today"
    else if days.value == 1 then "Tomorrow"
    else if days.value <= 14 then "In " + NatToString(days.value) + " days"
    else ""
  }

  // ---------------------------------------------------------------------------
  // Handoff progress and notes
  // ---------------------------------------------------------------------------

  /** The number of workflow steps a handoff goes through. */
  const HandoffSteps := 7

  /** `Math.round(statusStep / 7 * 100)`: the completed share of the workflow, in percent. */
  function ProgressPercent(statusStep: int): (r: int)
    ensures r == (100 * statusStep + 3) / 7
    ensures -7 <= 2 * (100 * statusStep - 7 * r) < 7
    ensures 0 <= statusStep <= HandoffSteps ==> 0 <= r <= 100
    ensures statusStep == 0 ==> r == 0
    ensures statusStep == HandoffSteps ==> r == 100
  {
    RoundDivBy7(100 * statusStep);
    RoundDivNearest(100 * statusStep, 7);
    RoundDiv(100 * statusStep, HandoffSteps)
  }

  /** More completed steps never show less progress. */
  lemma ProgressPercentMonotone(a: int, b: int)
    requires a <= b
    ensures ProgressPercent(a) <= ProgressPercent(b)
  {
    var pa := ProgressPercent(a);
    var pb := ProgressPercent(b);
    assert 7 * pa <= 100 * a + 3 <= 100 * b + 3 < 7 * pb + 7;
  }

  /** Longest engineering note shown in full. */
  const NotesLimit := 100

  /** The notes as shown: absent or empty notes show nothing, and notes longer than
      the limit are cut to their first 100 characters followed by "...". */
  function TruncateNotes(notes: Option<string>): (r: string)
    ensures !Truthy(notes) ==> r == ""
    ensures Truthy(notes) && |notes.value| <= NotesLimit ==> r == notes.value
    ensures Truthy(notes) && |notes.value| > NotesLimit ==>
      |r| == NotesLimit + 3 && StartsWith(notes.value, r[..NotesLimit]) && r[NotesLimit..] == "..."
    ensures |r| <= NotesLimit + 3
  {
    if Truthy(notes) then
      if |notes.value| > NotesLimit then notes.value[..NotesLimit] + "..." else notes.value
    else ""
  }

  /** Truncating an already truncated note changes nothing. */
  lemma TruncateNotesIdempotent(notes: Option<string>)
    ensures TruncateNotes(Some(TruncateNotes(notes))) == TruncateNotes(notes)
  {
    var once := TruncateNotes(notes);
    if Truthy(notes) && |notes.value| > NotesLimit {
      assert once[..NotesLimit] == notes.value[..NotesLimit];
      assert once[..NotesLimit] + "..." == once;
    }
  }

  /** `notes && notes.length > 0`: whether the handoff has engineering notes. */
  function HasEngineeringNotes(notes: Option<string>): (r: bool)
    ensures r <==> TruncateNotes(notes) != ""
  {
    notes.Some? && |notes.value| > 0
  }
}
