/** What the client components do outside their own state: requests to the
    cart store, the order POST, blocking alerts, closing a modal through its
    `onClose` prop, router navigation and removal of the stored cart. A
    component records each such call, in order, in its `effects` log. Also the
    outcome of an awaited `fetch`, as a component observes it. */
module Effects {
  import opened JsValues
  import opened CartItems
  import opened OrderRoute
  import Mail

  datatype Effect =
    | Cart(call: CartCall)
    | PostOrder(payload: OrderRequest)   // fetch('/api/send-order', { method: 'POST', body })
    | Alert(text: string)
    | CloseModal                         // the `onClose` prop
    | Navigate(path: string)             // router.push(path)
    | RemoveStoredCart                   // localStorage.removeItem('cart')

  /** How an awaited order POST ends for the component: an ok response, a response
      that is not ok (with the `error` field of its JSON body, read only by the pages
      that read it), or a throw (the network failed, or the error body would not parse). */
  datatype FetchOutcome = Ok | NotOk(error: Field) | Threw

  /** What a component sees of a response of the order route: `response.ok` is a 2xx status. */
  function OutcomeOf(r: Mail.Response): (o: FetchOutcome)
    ensures o.Ok? <==> 200 <= r.status < 300
    ensures r.json.ErrorJson? && !o.Ok? ==> o == NotOk(Some(r.json.error))
  {
    if 200 <= r.status < 300 then Ok
    else match r.json
      case ErrorJson(e) => NotOk(Some(e))
      case MessageJson(_, _) => NotOk(None)
  }
}
