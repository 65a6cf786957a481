/** Badge variants of the handoff visualization, matched case-insensitively against
    the handoff's status and peer-review status. */
module HandoffBadges {
  import opened JsText

  /** The primary-status table, keyed by the lower-cased status. */
  const StatusBadgeTable: map<string, string> := map[
    "complete" := "success",
    "ready to buy" := "success",
    "peer review" := "warning",
    "pending review" := "warning",
    "in review" := "info",
    "bom created" := "info",
    "drawings created" := "info"]

  /** `statusBadgeVariant` for a status text: the table entry of its lower-cased
      form, or "default" for anything the table does not list (the empty status included). */
  function StatusBadgeVariant(status: string): (r: string)
    ensures ToLower(status) in StatusBadgeTable ==> r == StatusBadgeTable[ToLower(status)]
    ensures ToLower(status) !in StatusBadgeTable ==> r == "default"
    ensures r in {"success", "warning", "info", "default"}
  {
    var lowered := ToLower(status);
    if lowered == "complete" then "success"
    else if lowered == "ready to buy" then "success"
    else if lowered == "peer review" then "warning"
    else if lowered == "in review" then "info"
    else if lowered == "bom created" then "info"
    else if lowered == "drawings created" then "info"
    else if lowered == "pending review" then "warning"
    else "default"
  }

  /** `peerReviewBadgeVariant` for a peer-review status text: success exactly for
      "pass", error exactly for "fail" (in any letter case), warning for anything else. */
  function PeerReviewBadgeVariant(status: string): (r: string)
    ensures r == "success" <==> ToLower(status) == "pass"
    ensures r == "error" <==> ToLower(status) == "fail"
    ensures r == "warning" <==> ToLower(status) != "pass" && ToLower(status) != "fail"
  {
    var lowered := ToLower(status);
    if lowered == "pass" then "success"
    else if lowered == "fail" then "error"
    else "warning"
  }

  /** Letter case never changes a badge: a status and its lower-cased form get the same variants. */
  lemma BadgesIgnoreCase(status: string)
    ensures StatusBadgeVariant(ToLower(status)) == StatusBadgeVariant(status)
    ensures PeerReviewBadgeVariant(ToLower(status)) == PeerReviewBadgeVariant(status)
  {
    ToLowerIdempotent(status);
  }

  /** Sample statuses: "Complete" and "complete" are both success. */
  lemma CompleteInAnyCaseIsSuccess()
    ensures StatusBadgeVariant("Complete") == "success"
    ensures StatusBadgeVariant("complete") == "success"
  {
    LowerOfLiteral("Complete", "complete");
    LowerOfLiteral("complete", "complete");
  }

  /** Sample statuses: an unlisted status and the empty status are default; the
      empty peer-review status is warning and "FAIL" is error. */
  lemma UnlistedStatusesExamples()
    ensures StatusBadgeVariant("Shipped") == "default"
    ensures StatusBadgeVariant("") == "default"
    ensures PeerReviewBadgeVariant("") == "warning"
    ensures PeerReviewBadgeVariant("FAIL") == "error"
  {
    LowerOfLiteral("Shipped", "shipped");
    LowerOfLiteral("FAIL", "fail");
  }

  lemma LowerOfLiteral(s: string, t: string)
    requires |s| == |t| && forall i :: 0 <= i < |s| ==> LowerChar(s[i]) == t[i]
    ensures ToLower(s) == t
  {
  }
}
