/** The handoff visualization: four record reads chained by foreign keys
    (handoff, then its order, then the order's account and contact), the display
    getters over the records that resolved, and navigation to the account and contact.

    Each read's completion is one atomic transition. The record service only
    provisions data for a read whose key holds a record id; it may report an error
    for any read. */
module HandoffView {
  import opened Wrappers
  import opened JsText
  import opened Platform
  import opened HandoffBadges

  /** A record as the record service returns it: field to value, None for a null field. */
  type Record = map<string, Option<string>>

  const HANDOFF_NAME := "Handoff__c.Name"
  const HANDOFF_ORDER := "Handoff__c.Order__c"
  const HANDOFF_PRODUCT_LINES := "Handoff__c.Product_Lines__c"
  const HANDOFF_APPLICATION := "Handoff__c.Application__c"
  const HANDOFF_VOLTAGE := "Handoff__c.Voltage__c"
  const HANDOFF_AMPERAGE := "Handoff__c.Amperage__c"
  const HANDOFF_ENCLOSURE := "Handoff__c.Enclosure__c"
  const HANDOFF_CONNECTOR_TYPE := "Handoff__c.Connector_Type__c"
  const HANDOFF_SITE_CONDITIONS := "Handoff__c.Site_Conditions__c"
  const HANDOFF_CUSTOMER_INTENT := "Handoff__c.Customer_Intent__c"
  const HANDOFF_SALES_NOTES := "Handoff__c.Sales_Notes__c"
  const HANDOFF_STATUS := "Handoff__c.Status__c"
  const HANDOFF_ENGINEERING_NOTES := "Handoff__c.Engineering_Notes__c"
  const HANDOFF_PEER_REVIEW_STATUS := "Handoff__c.Peer_Review_Status__c"
  const HANDOFF_PEER_REVIEW_NOTES := "Handoff__c.Peer_Review_Notes__c"
  const ORDER_NUMBER := "Order.OrderNumber"
  const ORDER_ACCOUNT := "Order.AccountId"
  const ORDER_CONTACT := "Order.Contact__c"
  const ACCOUNT_NAME := "Account.Name"
  const ACCOUNT_INDUSTRY := "Account.Industry"
  const CONTACT_NAME := "Contact.Name"
  const CONTACT_TITLE := "Contact.Title"

  /** `getFieldValue(record, field)`: undefined for an absent record or field. */
  function GetFieldValue(rec: Option<Record>, field: string): Option<string> {
    if rec.Some? && field in rec.value then rec.value[field] else None
  }

  /** A read error: `error.body?.message`. */
  datatype WireError = WireError(bodyMessage: Option<string>)

  /** What a read hands its handler: `{ data, error }`, either of which may be undefined. */
  datatype WireResult = WireResult(data: Option<Record>, error: Option<WireError>)

  datatype ViewState = ViewState(
    recordId: Option<string>,
    handoffData: Option<Record>,
    orderId: Option<string>,
    accountId: Option<string>,
    contactId: Option<string>,
    orderData: Option<Record>,
    accountData: Option<Record>,
    contactData: Option<Record>,
    loading: bool)

  /** The view as mounted on the handoff record `recordId`: nothing resolved, loading. */
  function Init(recordId: Option<string>): (s: ViewState)
    ensures s.loading && Cascaded(s) && s.recordId == recordId
    ensures s.handoffData.None? && s.orderId.None? && s.accountId.None? && s.contactId.None?
  {
    ViewState(recordId, None, None, None, None, None, None, None, true)
  }

  // ---------------------------------------------------------------------------
  // The four read handlers
  // ---------------------------------------------------------------------------

  /** `wiredHandoff`: data stores the handoff and takes the order id from it; an
      error toasts. Either ends loading. Only this handler assigns the order id. */
  function WiredHandoff(s: ViewState, w: WireResult): (r: Step<ViewState>)
    ensures r.state.orderId != s.orderId ==> w.data.Some? && r.state.orderId == GetFieldValue(w.data, HANDOFF_ORDER)
    ensures w.data.Some? ==> r.state.handoffData == w.data && r.state.orderId == GetFieldValue(w.data, HANDOFF_ORDER)
    ensures (w.data.Some? || w.error.Some?) ==> !r.state.loading
    ensures w.data.None? ==> r.state == s.(loading := r.state.loading)
    ensures w.data.None? && w.error.None? ==> r == Step(s, [])
    ensures w.data.None? && w.error.Some? ==>
      r.effects == [ShowToast(Toast("Error loading handoff data", OrElse(w.error.value.bodyMessage, "Unknown error"), "error", None))]
    ensures (w.data.Some? || w.error.None?) ==> r.effects == []
    ensures r.state.accountId == s.accountId && r.state.contactId == s.contactId && r.state.recordId == s.recordId
    ensures r.state.orderData == s.orderData && r.state.accountData == s.accountData && r.state.contactData == s.contactData
  {
    if w.data.Some? then
      Step(s.(handoffData := w.data, orderId := GetFieldValue(w.data, HANDOFF_ORDER), loading := false), [])
    else if w.error.Some? then
      var message := OrElse(w.error.value.bodyMessage, "Unknown error");
      Step(s.(loading := false), [ShowToast(Toast("Error loading handoff data", message, "error", None))])
    else
      Step(s, [])
  }

  /** `wiredOrder`: data stores the order and takes the account and contact ids from
      it; an error for a set order id only ends loading. Only this handler assigns
      the account and contact ids, and nothing here touches the handoff or order id. */
  function WiredOrder(s: ViewState, w: WireResult): (r: ViewState)
    ensures r.accountId != s.accountId || r.contactId != s.contactId ==> w.data.Some?
    ensures w.data.Some? ==>
      && r.orderData == w.data
      && r.accountId == GetFieldValue(w.data, ORDER_ACCOUNT)
      && r.contactId == GetFieldValue(w.data, ORDER_CONTACT)
    ensures w.data.None? ==> r == s.(loading := r.loading)
    ensures r.loading != s.loading ==> w.data.None? && w.error.Some? && Truthy(s.orderId) && !r.loading
    ensures w.data.None? && w.error.Some? && Truthy(s.orderId) ==> !r.loading
    ensures r.handoffData == s.handoffData && r.orderId == s.orderId && r.recordId == s.recordId
    ensures r.accountData == s.accountData && r.contactData == s.contactData
  {
    if w.data.Some? then
      s.(orderData := w.data,
         accountId := GetFieldValue(w.data, ORDER_ACCOUNT),
         contactId := GetFieldValue(w.data, ORDER_CONTACT))
    else if w.error.Some? && Truthy(s.orderId) then
      s.(loading := false)
    else
      s
  }

  /** `wiredAccount`: data stores the account; an error only logs, so it changes nothing. */
  function WiredAccount(s: ViewState, w: WireResult): (r: ViewState)
    ensures w.data.Some? ==> r == s.(accountData := w.data)
    ensures w.data.None? ==> r == s
  {
    if w.data.Some? then s.(accountData := w.data) else s
  }

  /** `wiredContact`: data stores the contact; an error only logs, so it changes nothing. */
  function WiredContact(s: ViewState, w: WireResult): (r: ViewState)
    ensures w.data.Some? ==> r == s.(contactData := w.data)
    ensures w.data.None? ==> r == s
  {
    if w.data.Some? then s.(contactData := w.data) else s
  }

  // ---------------------------------------------------------------------------
  // The cascade
  // ---------------------------------------------------------------------------

  datatype WireEvent =
    | HandoffRead(result: WireResult)
    | OrderRead(result: WireResult)
    | AccountRead(result: WireResult)
    | ContactRead(result: WireResult)

  /** The record service provisions data only for a read keyed by a record id. */
  predicate Provisioned(s: ViewState, e: WireEvent) {
    match e
    case HandoffRead(w) => w.data.Some? ==> Truthy(s.recordId)
    case OrderRead(w) => w.data.Some? ==> Truthy(s.orderId)
    case AccountRead(w) => w.data.Some? ==> Truthy(s.accountId)
    case ContactRead(w) => w.data.Some? ==> Truthy(s.contactId)
  }

  function Next(s: ViewState, e: WireEvent): Step<ViewState> {
    match e
    case HandoffRead(w) => WiredHandoff(s, w)
    case OrderRead(w) => Step(WiredOrder(s, w), [])
    case AccountRead(w) => Step(WiredAccount(s, w), [])
    case ContactRead(w) => Step(WiredContact(s, w), [])
  }

  /** The cascade's invariant: each dependent id is the one its parent record
      holds (so none is set before its parent resolved), every resolved record's
      parent has resolved too, and a resolved handoff has ended loading. */
  predicate Cascaded(s: ViewState) {
    && s.orderId == GetFieldValue(s.handoffData, HANDOFF_ORDER)
    && s.accountId == GetFieldValue(s.orderData, ORDER_ACCOUNT)
    && s.contactId == GetFieldValue(s.orderData, ORDER_CONTACT)
    && (s.orderData.Some? ==> s.handoffData.Some?)
    && (s.accountData.Some? ==> s.orderData.Some?)
    && (s.contactData.Some? ==> s.orderData.Some?)
    && (s.handoffData.Some? ==> !s.loading)
  }

  /** Each provisioned read keeps the cascade invariant, and none restarts loading. */
  lemma NextKeepsCascade(s: ViewState, e: WireEvent)
    requires Cascaded(s) && Provisioned(s, e)
    ensures Cascaded(Next(s, e).state)
    ensures !s.loading ==> !Next(s, e).state.loading
  {
  }

  /** Applies the reads in order, skipping any the service would not provision. */
  function Run(s: ViewState, events: seq<WireEvent>): ViewState
    decreases |events|
  {
    if |events| == 0 then s
    else
      var s' := if Provisioned(s, events[0]) then Next(s, events[0]).state else s;
      Run(s', events[1..])
  }

  /** From any invariant state, every sequence of reads keeps the invariant; once
      loading has ended it never restarts. */
  lemma {:induction false} RunKeepsCascade(s: ViewState, events: seq<WireEvent>)
    requires Cascaded(s)
    ensures Cascaded(Run(s, events))
    ensures !s.loading ==> !Run(s, events).loading
    decreases |events|
  {
    if |events| > 0 {
      var s' := if Provisioned(s, events[0]) then Next(s, events[0]).state else s;
      if Provisioned(s, events[0]) {
        NextKeepsCascade(s, events[0]);
      }
      RunKeepsCascade(s', events[1..]);
    }
  }

  /** No dependent id becomes set, and no dependent record resolves, before its parent record resolved. */
  lemma DependentsNeedParents(s: ViewState)
    requires Cascaded(s)
    ensures Truthy(s.orderId) ==> s.handoffData.Some?
    ensures Truthy(s.accountId) || Truthy(s.contactId) ==> s.orderData.Some? && s.handoffData.Some?
    ensures s.handoffData.None? ==>
      && s.orderId.None? && s.accountId.None? && s.contactId.None?
      && s.orderData.None? && s.accountData.None? && s.contactData.None?
  {
  }

  /** An order read without data never changes a reachable view: an order id is
      only set once the handoff resolved, which already ended loading, so the error
      branch's `loading = false` finds loading ended. */
  lemma OrderErrorChangesNothing(s: ViewState, w: WireResult)
    requires Cascaded(s) && w.data.None?
    ensures WiredOrder(s, w) == s
  {
  }

  /** A run in which the handoff read never provides data leaves every dependent
      id unset and no dependent record resolved, so no dependent read ever gets
      data; and once the handoff read has failed, loading stays ended. */
  lemma {:induction false} HandoffFailureStopsCascade(s: ViewState, events: seq<WireEvent>)
    requires Cascaded(s) && s.handoffData.None?
    requires forall i :: 0 <= i < |events| ==> !(events[i].HandoffRead? && events[i].result.data.Some?)
    ensures Run(s, events).handoffData.None?
    ensures Run(s, events).orderId.None? && Run(s, events).accountId.None? && Run(s, events).contactId.None?
    ensures Run(s, events).orderData.None? && Run(s, events).accountData.None? && Run(s, events).contactData.None?
    ensures (exists i :: 0 <= i < |events| && events[i].HandoffRead? && events[i].result.error.Some?) ==>
      !Run(s, events).loading
    decreases |events|
  {
    if |events| > 0 {
      var s' := if Provisioned(s, events[0]) then Next(s, events[0]).state else s;
      if Provisioned(s, events[0]) {
        NextKeepsCascade(s, events[0]);
      }
      assert s'.handoffData.None?;
      HandoffFailureStopsCascade(s', events[1..]);
      RunKeepsCascade(s', events[1..]);
      if exists i :: 0 <= i < |events| && events[i].HandoffRead? && events[i].result.error.Some? {
        if !(events[0].HandoffRead? && events[0].result.error.Some?) {
          var i :| 0 <= i < |events| && events[i].HandoffRead? && events[i].result.error.Some?;
          assert events[1..][i - 1] == events[i];
        }
      }
    }
  }

  // ---------------------------------------------------------------------------
  // Getters
  // ---------------------------------------------------------------------------

  /** `getFieldValue(this.handoffData, F) || ''`: always a string, "" when the
      handoff or the field is absent, null or empty. */
  function HandoffText(s: ViewState, field: string): (r: string)
    ensures Truthy(GetFieldValue(s.handoffData, field)) ==> r == GetFieldValue(s.handoffData, field).value
    ensures !Truthy(GetFieldValue(s.handoffData, field)) ==> r == ""
    ensures s.handoffData.None? ==> r == ""
  {
    OrElse(GetFieldValue(s.handoffData, field), "")
  }

  function HandoffName(s: ViewState): string { HandoffText(s, HANDOFF_NAME) }
  function ProductLines(s: ViewState): string { HandoffText(s, HANDOFF_PRODUCT_LINES) }
  function Application(s: ViewState): string { HandoffText(s, HANDOFF_APPLICATION) }
  function Voltage(s: ViewState): string { HandoffText(s, HANDOFF_VOLTAGE) }
  function Amperage(s: ViewState): string { HandoffText(s, HANDOFF_AMPERAGE) }
  function Enclosure(s: ViewState): string { HandoffText(s, HANDOFF_ENCLOSURE) }
  function ConnectorType(s: ViewState): string { HandoffText(s, HANDOFF_CONNECTOR_TYPE) }
  function SiteConditions(s: ViewState): string { HandoffText(s, HANDOFF_SITE_CONDITIONS) }
  function CustomerIntent(s: ViewState): string { HandoffText(s, HANDOFF_CUSTOMER_INTENT) }
  function SalesNotes(s: ViewState): string { HandoffText(s, HANDOFF_SALES_NOTES) }
  function Status(s: ViewState): string { HandoffText(s, HANDOFF_STATUS) }
  function EngineeringNotes(s: ViewState): string { HandoffText(s, HANDOFF_ENGINEERING_NOTES) }
  function PeerReviewStatus(s: ViewState): string { HandoffText(s, HANDOFF_PEER_REVIEW_STATUS) }
  function PeerReviewNotes(s: ViewState): string { HandoffText(s, HANDOFF_PEER_REVIEW_NOTES) }

  /** `this.xData ? getFieldValue(this.xData, F) : ''` for the order, account and
      contact: "" while the record is absent, the raw (possibly null) value once it resolved. */
  function RelatedText(rec: Option<Record>, field: string): (r: Option<string>)
    ensures rec.None? ==> r == Some("")
    ensures rec.Some? && field in rec.value ==> r == rec.value[field]
    ensures rec.Some? && field !in rec.value ==> r.None?
  {
    if rec.Some? then GetFieldValue(rec, field) else Some("")
  }

  function AccountName(s: ViewState): Option<string> { RelatedText(s.accountData, ACCOUNT_NAME) }
  function AccountIndustry(s: ViewState): Option<string> { RelatedText(s.accountData, ACCOUNT_INDUSTRY) }
  function ContactName(s: ViewState): Option<string> { RelatedText(s.contactData, CONTACT_NAME) }
  function ContactTitle(s: ViewState): Option<string> { RelatedText(s.contactData, CONTACT_TITLE) }
  function OrderNumber(s: ViewState): Option<string> { RelatedText(s.orderData, ORDER_NUMBER) }

  /** `voltage || amperage || enclosure || connectorType`: truthy exactly when one of
      the four specification fields is non-empty, and then the first such one. */
  function HasSpecData(s: ViewState): (r: string)
    ensures r != "" <==> Voltage(s) != "" || Amperage(s) != "" || Enclosure(s) != "" || ConnectorType(s) != ""
    ensures r != "" ==> r in {Voltage(s), Amperage(s), Enclosure(s), ConnectorType(s)}
    ensures Voltage(s) != "" ==> r == Voltage(s)
  {
    JsOr(JsOr(JsOr(Voltage(s), Amperage(s)), Enclosure(s)), ConnectorType(s))
  }

  /** `accountName || contactName`: truthy exactly when the account name or the contact name is non-empty. */
  function HasCustomerContext(s: ViewState): (r: Option<string>)
    ensures Truthy(r) <==> Truthy(AccountName(s)) || Truthy(ContactName(s))
    ensures Truthy(r) ==> r == AccountName(s) || r == ContactName(s)
  {
    JsOrNullable(AccountName(s), ContactName(s))
  }

  /** The primary badge: "default" until the handoff resolves. */
  function StatusBadge(s: ViewState): (r: string)
    ensures s.handoffData.None? ==> r == "default"
    ensures r == StatusBadgeVariant(Status(s))
  {
    assert s.handoffData.None? ==> Status(s) == "" && ToLower(Status(s)) == "";
    StatusBadgeVariant(Status(s))
  }

  /** The peer-review badge: "warning" until the handoff resolves or while its peer-review status is absent. */
  function PeerReviewBadge(s: ViewState): (r: string)
    ensures !Truthy(GetFieldValue(s.handoffData, HANDOFF_PEER_REVIEW_STATUS)) ==> r == "warning"
    ensures r == PeerReviewBadgeVariant(PeerReviewStatus(s))
  {
    assert PeerReviewStatus(s) == "" ==> ToLower(PeerReviewStatus(s)) == "";
    PeerReviewBadgeVariant(PeerReviewStatus(s))
  }

  // ---------------------------------------------------------------------------
  // Navigation
  // ---------------------------------------------------------------------------

  /** A record-page navigation to `id` when it is set, nothing otherwise. */
  function RecordPageIfSet(id: Option<string>): (effects: seq<Effect>)
    ensures Navigates(effects) <==> Truthy(id)
    ensures !Truthy(id) ==> effects == []
    ensures Truthy(id) ==> effects == [Navigate(RecordPage(id.value, None, "view"))]
  {
    if Truthy(id) then
      var effects := [Navigate(RecordPage(id.value, None, "view"))];
      assert IsNavigation(effects[0]);
      effects
    else []
  }

  /** `navigateToAccount`: no navigation while the account id is unset, otherwise
      one to the account's page, which in a cascaded state needs the order resolved. */
  function NavigateToAccount(s: ViewState): (effects: seq<Effect>)
    ensures !Truthy(s.accountId) ==> effects == []
    ensures Truthy(s.accountId) ==> effects == [Navigate(RecordPage(s.accountId.value, None, "view"))]
    ensures Cascaded(s) && effects != [] ==> s.orderData.Some?
  {
    RecordPageIfSet(s.accountId)
  }

  /** `navigateToContact`: no navigation while the contact id is unset, otherwise
      one to the contact's page, which in a cascaded state needs the order resolved. */
  function NavigateToContact(s: ViewState): (effects: seq<Effect>)
    ensures !Truthy(s.contactId) ==> effects == []
    ensures Truthy(s.contactId) ==> effects == [Navigate(RecordPage(s.contactId.value, None, "view"))]
    ensures Cascaded(s) && effects != [] ==> s.orderData.Some?
  {
    RecordPageIfSet(s.contactId)
  }
}
