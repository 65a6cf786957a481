/** The per-list projections the account summary renders: every server row keeps
    all of its own fields and gains the derived presentation fields. */
module SummaryProjection {
  import opened Wrappers
  import opened JsText
  import opened SummaryData
  import opened SummaryFormat

  /** `width: N%`, the inline style of a progress bar. */
  function WidthStyle(percent: int): string {
    "width: " + IntToString(percent) + "%"
  }

  /** Close-date class of an opportunity: overdue wins over closing soon. */
  function CloseDateClass(isOverdue: bool, isClosingSoon: bool): (r: string)
    ensures r == "date-overdue" <==> isOverdue
    ensures r == "date-soon" <==> !isOverdue && isClosingSoon
    ensures r == "" <==> !isOverdue && !isClosingSoon
  {
    if isOverdue then "date-overdue" else if isClosingSoon then "date-soon" else ""
  }

  datatype ProcessedOpportunity = ProcessedOpportunity(
    opportunity: Opportunity,
    statusClass: string,
    stageClass: string,
    probabilityClass: string,
    probabilityStyle: string,
    closeDateClass: string,
    daysText: string)

  datatype ProcessedOrder = ProcessedOrder(
    order: Order,
    statusClass: string,
    effectiveDateClass: string,
    daysText: string)

  datatype ProcessedHandoff = ProcessedHandoff(
    handoff: Handoff,
    statusClass: string,
    peerReviewClass: string,
    progressPercent: int,
    progressStyle: string,
    hasEngineeringNotes: bool,
    truncatedNotes: string)

  datatype ProcessedActionItem = ProcessedActionItem(
    item: ActionItem,
    key: string,
    priorityBadgeClass: string,
    itemClass: string)

  datatype ProcessedKeyDate = ProcessedKeyDate(
    keyDate: KeyDate,
    key: string,
    dateClass: string,
    iconName: string)

  function ProcessOpportunity(o: Opportunity): ProcessedOpportunity {
    ProcessedOpportunity(
      o,
      StatusClass(o.statusVariant),
      StageClass(o.stageBadgeClass),
      ProbabilityClass(o.probability),
      WidthStyle(o.probability),
      CloseDateClass(o.isOverdue, o.isClosingSoon),
      DaysText(o.daysUntilClose, o.isClosed))
  }

  function ProcessOrder(o: Order): ProcessedOrder {
    ProcessedOrder(
      o,
      StatusClass(o.statusVariant),
      if o.isEffectiveSoon then "date-soon" else "",
      OrderDaysText(o.daysUntilEffective))
  }

  function ProcessHandoff(h: Handoff): ProcessedHandoff {
    var percent := ProgressPercent(h.statusStep);
    ProcessedHandoff(
      h,
      StatusClass(h.statusVariant),
      StatusClass(h.peerReviewVariant),
      percent,
      WidthStyle(percent),
      HasEngineeringNotes(h.engineeringNotes),
      TruncateNotes(h.engineeringNotes))
  }

  /** `'action-item ' + item.priority + '-priority'`: an absent priority reads "undefined". */
  function ActionItemClass(priority: Option<string>): string {
    "action-item " + Interpolate(priority) + "-priority"
  }

  function ProcessActionItem(item: ActionItem, index: nat): ProcessedActionItem {
    ProcessedActionItem(
      item,
      "action-" + NatToString(index),
      PriorityClass(item.priority),
      ActionItemClass(item.priority))
  }

  function ProcessKeyDate(kd: KeyDate, index: nat): ProcessedKeyDate {
    ProcessedKeyDate(
      kd,
      "date-" + NatToString(index),
      DateClass(kd.variant),
      if kd.recordType == "Opportunity" then "standard:opportunity" else "standard:orders")
  }

  /** Opportunities as rendered: one row per server row, in the server's order. */
  function ProcessedOpportunities(data: Option<SummaryResult>): (r: seq<ProcessedOpportunity>)
    ensures data.None? ==> r == []
    ensures data.Some? ==> |r| == |data.value.opportunities|
    ensures data.Some? ==> forall i :: 0 <= i < |r| ==>
      var o := data.value.opportunities[i];
      && r[i].opportunity == o
      && r[i].statusClass == StatusClass(o.statusVariant)
      && r[i].stageClass == StageClass(o.stageBadgeClass)
      && r[i].probabilityClass == ProbabilityClass(o.probability)
      && r[i].probabilityStyle == WidthStyle(o.probability)
      && r[i].closeDateClass == CloseDateClass(o.isOverdue, o.isClosingSoon)
      && r[i].daysText == DaysText(o.daysUntilClose, o.isClosed)
  {
    if data.None? then []
    else
      var xs := data.value.opportunities;
      seq(|xs|, i requires 0 <= i < |xs| => ProcessOpportunity(xs[i]))
  }

  /** Orders as rendered: one row per server row, in the server's order. */
  function ProcessedOrders(data: Option<SummaryResult>): (r: seq<ProcessedOrder>)
    ensures data.None? ==> r == []
    ensures data.Some? ==> |r| == |data.value.orders|
    ensures data.Some? ==> forall i :: 0 <= i < |r| ==>
      var o := data.value.orders[i];
      && r[i].order == o
      && r[i].statusClass == StatusClass(o.statusVariant)
      && (r[i].effectiveDateClass == "date-soon" <==> o.isEffectiveSoon)
      && (r[i].effectiveDateClass == "" <==> !o.isEffectiveSoon)
      && r[i].daysText == OrderDaysText(o.daysUntilEffective)
  {
    if data.None? then []
    else
      var xs := data.value.orders;
      seq(|xs|, i requires 0 <= i < |xs| => ProcessOrder(xs[i]))
  }

  /** Handoffs as rendered: one row per server row, in the server's order, with the
      progress within 0..100 for steps within 0..7 and the notes cut to at most 103 characters. */
  function ProcessedHandoffs(data: Option<SummaryResult>): (r: seq<ProcessedHandoff>)
    ensures data.None? ==> r == []
    ensures data.Some? ==> |r| == |data.value.handoffs|
    ensures data.Some? ==> forall i :: 0 <= i < |r| ==>
      var h := data.value.handoffs[i];
      && r[i].handoff == h
      && r[i].statusClass == StatusClass(h.statusVariant)
      && r[i].peerReviewClass == StatusClass(h.peerReviewVariant)
      && r[i].progressPercent == ProgressPercent(h.statusStep)
      && (0 <= h.statusStep <= HandoffSteps ==> 0 <= r[i].progressPercent <= 100)
      && r[i].progressStyle == WidthStyle(r[i].progressPercent)
      && r[i].truncatedNotes == TruncateNotes(h.engineeringNotes)
      && |r[i].truncatedNotes| <= NotesLimit + 3
      && r[i].hasEngineeringNotes == HasEngineeringNotes(h.engineeringNotes)
      && (r[i].hasEngineeringNotes <==> r[i].truncatedNotes != "")
  {
    if data.None? then []
    else
      var xs := data.value.handoffs;
      seq(|xs|, i requires 0 <= i < |xs| => ProcessHandoff(xs[i]))
  }

  /** Action items as rendered: one row per server row, in order, keyed "action-i". */
  function ProcessedActionItems(data: Option<SummaryResult>): (r: seq<ProcessedActionItem>)
    ensures data.None? ==> r == []
    ensures data.Some? ==> |r| == |data.value.aiActionItems|
    ensures data.Some? ==> forall i :: 0 <= i < |r| ==>
      && r[i].item == data.value.aiActionItems[i]
      && r[i].key == "action-" + NatToString(i)
      && r[i].priorityBadgeClass == PriorityClass(data.value.aiActionItems[i].priority)
      && r[i].itemClass == "action-item " + Interpolate(data.value.aiActionItems[i].priority) + "-priority"
  {
    if data.None? then []
    else
      var xs := data.value.aiActionItems;
      seq(|xs|, i requires 0 <= i < |xs| => ProcessActionItem(xs[i], i))
  }

  /** The number of key dates the summary shows. */
  const KeyDatesShown := 5

  function Min(a: int, b: int): int {
    if a <= b then a else b
  }

  /** Key dates as rendered: the first five server rows, in order, keyed "date-i",
      with the opportunity icon for opportunity rows and the orders icon for the rest. */
  function ProcessedKeyDates(data: Option<SummaryResult>): (r: seq<ProcessedKeyDate>)
    ensures data.None? ==> r == []
    ensures data.Some? ==> |r| == Min(|data.value.keyDates|, KeyDatesShown)
    ensures data.Some? ==> forall i :: 0 <= i < |r| ==>
      && r[i].keyDate == data.value.keyDates[i]
      && r[i].key == "date-" + NatToString(i)
      && r[i].dateClass == DateClass(data.value.keyDates[i].variant)
      && r[i].iconName == (if data.value.keyDates[i].recordType == "Opportunity" then "standard:opportunity" else "standard:orders")
  {
    if data.None? then []
    else
      var shown := data.value.keyDates[..Min(|data.value.keyDates|, KeyDatesShown)];
      seq(|shown|, i requires 0 <= i < |shown| => ProcessKeyDate(shown[i], i))
  }

  /** No two rendered action items share a key. */
  lemma ActionItemKeysDistinct(data: Option<SummaryResult>)
    ensures var r := ProcessedActionItems(data);
      forall i, j :: 0 <= i < j < |r| ==> r[i].key != r[j].key
  {
    var r := ProcessedActionItems(data);
    forall i, j | 0 <= i < j < |r|
      ensures r[i].key != r[j].key
    {
      PrefixedNumbersDistinct("action-", i, j);
    }
  }

  /** No two rendered key dates share a key. */
  lemma KeyDateKeysDistinct(data: Option<SummaryResult>)
    ensures var r := ProcessedKeyDates(data);
      forall i, j :: 0 <= i < j < |r| ==> r[i].key != r[j].key
  {
    var r := ProcessedKeyDates(data);
    forall i, j | 0 <= i < j < |r|
      ensures r[i].key != r[j].key
    {
      PrefixedNumbersDistinct("date-", i, j);
    }
  }
}
