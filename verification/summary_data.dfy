/** The shape of the result the remote summary procedure returns, reduced to the
    fields the account summary component reads. An absent list is modelled as an
    empty one (the component renders both as no rows); an absent scalar is `None`. */
module SummaryData {
  import opened Wrappers

  datatype Opportunity = Opportunity(
    statusVariant: string,
    stageBadgeClass: string,
    probability: int,
    isOverdue: bool,
    isClosingSoon: bool,
    daysUntilClose: int,
    isClosed: bool)

  datatype Order = Order(
    statusVariant: string,
    isEffectiveSoon: bool,
    daysUntilEffective: Option<int>)

  datatype Handoff = Handoff(
    statusVariant: string,
    peerReviewVariant: string,
    statusStep: int,
    engineeringNotes: Option<string>)

  datatype ActionItem = ActionItem(priority: Option<string>)

  datatype KeyDate = KeyDate(variant: string, recordType: string)

  datatype SummaryResult = SummaryResult(
    success: bool,
    errorMessage: Option<string>,
    accountName: Option<string>,
    accountIndustry: Option<string>,
    openOpportunities: Option<int>,
    formattedPipelineValue: Option<string>,
    totalOrders: Option<int>,
    totalHandoffs: Option<int>,
    aiSummary: Option<string>,
    emailSubject: Option<string>,
    emailBody: Option<string>,
    opportunities: seq<Opportunity>,
    orders: seq<Order>,
    handoffs: seq<Handoff>,
    aiActionItems: seq<ActionItem>,
    keyDates: seq<KeyDate>)
}
