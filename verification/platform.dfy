/** The host platform's services, seen from the components as effects they emit:
    toast notifications, navigation, and the remote summary call. */
module Platform {
  import opened Wrappers

  /** A toast notification; `mode` is None when the component does not set one
      (the platform then uses its dismissable default). */
  datatype Toast = Toast(title: string, message: string, variant: string, mode: Option<string>)

  /** Navigation targets the components use. */
  datatype PageReference =
    | RecordPage(recordId: string, objectApiName: Option<string>, actionName: string)
      /** A global quick action; `subject` and `htmlBody` are the default field
          values handed to the encoder before navigation. */
    | QuickAction(apiName: string, contextRecordId: Option<string>, subject: string, htmlBody: string)

  datatype Effect =
    | ShowToast(toast: Toast)
    | Navigate(page: PageReference)
      /** The remote `getAccountSummary` call, issued with the bound record id. */
    | CallGetAccountSummary(accountId: Option<string>)

  /** The state after an event handler together with the effects it emitted, in order. */
  datatype Step<S> = Step(state: S, effects: seq<Effect>)

  predicate IsNavigation(e: Effect) {
    e.Navigate?
  }

  /** True when some effect in `effects` is a navigation. */
  predicate Navigates(effects: seq<Effect>) {
    exists i | 0 <= i < |effects| :: IsNavigation(effects[i])
  }
}
