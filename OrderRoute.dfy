/** app/api/send-order/route.ts: `POST /api/send-order`, the order handler.
    It reads the JSON body, checks the buyer's names, e-mail and a non-empty
    cart, composes a plain-text order message, checks that the e-mail
    provider is configured and maps the provider's verdict to a response. */
module OrderRoute {
  import opened JsValues
  import opened Text
  import opened CartItems
  import opened EmailTemplate
  import opened Mail

  /** The fields the handler destructures from the JSON body. */
  datatype OrderRequest = OrderRequest(
    firstName: Field,
    lastName: Field,
    email: Field,
    deliveryEmail: Field,
    platform: Field,
    phoneNumber: Field,
    notes: Field,
    cart: Option<seq<CartItem>>,
    total: Field)

  const DefaultFrom := "Portfolio Store <noreply@yourdomain.com>"

  /** `!firstName || !lastName || !email || !cart || cart.length === 0` is false. */
  predicate HasRequiredFields(req: OrderRequest) {
    Truthy(req.firstName) && Truthy(req.lastName) && Truthy(req.email)
    && req.cart.Some? && |req.cart.value| > 0
  }

  /** One order-summary line: `${title} - Quantity: ${quantity} - Price: ${price}`. */
  function SummaryLine(item: CartItem): string {
    item.title + " - Quantity: " + IntToString(item.quantity) + " - Price: " + item.price
  }

  /** `cart.map(...)`: the summary line of every item, in cart order. */
  function SummaryLines(cart: seq<CartItem>): (lines: seq<string>)
    ensures |lines| == |cart|
    ensures forall i :: 0 <= i < |cart| ==> lines[i] == SummaryLine(cart[i])
  {
    seq(|cart|, i requires 0 <= i < |cart| => SummaryLine(cart[i]))
  }

  /** `cart.map(...).join('\n')`. */
  function OrderSummary(cart: seq<CartItem>): string {
    Join(SummaryLines(cart), '\n')
  }

  /** Where the products go: the delivery e-mail, or the buyer's e-mail when it is empty. */
  function DeliveryAddress(req: OrderRequest): string
    requires HasRequiredFields(req)
  {
    Or(req.deliveryEmail, req.email.value)
  }

  /** The lines of the order message (the template literal's text, split at its
      newlines): a blank line and the "Order Details:" title, one summary line per cart
      item in cart order, then the total, the delivery block with its fallbacks, and
      the notes with theirs; the literal ends with four spaces of indentation. */
  function MessageLines(req: OrderRequest): seq<string>
    requires HasRequiredFields(req)
  {
    ["", "Order Details:"] + SummaryLines(req.cart.value) + DeliveryLines(req)
  }

  /** The lines of the message after the order summary. */
  function DeliveryLines(req: OrderRequest): seq<string>
    requires HasRequiredFields(req)
  {
    ["", "Total: $" + Interpolate(req.total),
     "", "Delivery Information:",
     "Platform: " + Interpolate(req.platform),
     "Delivery Email: " + DeliveryAddress(req),
     "Phone: " + Or(req.phoneNumber, "Not provided"),
     "", "Additional Notes:",
     Or(req.notes, "None"),
     "    "]
  }

  /** The order message: the template literal, that is its lines joined with newlines. */
  function OrderMessage(req: OrderRequest): string
    requires HasRequiredFields(req)
  {
    Join(MessageLines(req), '\n')
  }

  /** The e-mail for a request that passed the guard. */
  function OrderEmail(req: OrderRequest, env: Env): (e: Email)
    requires HasRequiredFields(req)
    ensures e.from == Or(env.fromEmail, DefaultFrom) && e.replyTo == req.email.value
    ensures e.to == Recipients(env)
    ensures e.subject == "New Order from " + req.firstName.value + " " + req.lastName.value
    ensures e.template.formType == Some("order") && e.template.service == req.platform
    ensures e.template.firstName == req.firstName.value && e.template.lastName == req.lastName
    ensures e.template.email == req.email.value
    ensures e.template.message == OrderMessage(req)
  {
    Email(
      from := Or(env.fromEmail, DefaultFrom),
      to := Recipients(env),
      replyTo := req.email.value,
      subject := "New Order from " + req.firstName.value + " " + req.lastName.value,
      template := TemplateProps(req.firstName.value, req.lastName, req.email.value, req.platform,
                                OrderMessage(req), Some("order")))
  }

  /** The handler. `body` is None when `request.json()` throws. */
  function Post(body: Option<OrderRequest>, env: Env): (h: Handled)
    ensures body.None? ==> h == Handled(InternalError, None)
    ensures body.Some? && !HasRequiredFields(body.value) ==> h == Handled(MissingFields, None)
    ensures body.Some? && HasRequiredFields(body.value) && !Configured(env) ==> h == Handled(NotConfigured, None)
    ensures h.sent.Some? <==> body.Some? && HasRequiredFields(body.value) && Configured(env)
    ensures h.sent.Some? ==> h.sent.value == OrderEmail(body.value, env)
    ensures h.sent.Some? ==> (env.send.ProviderError? <==> h.response == Response(400, ErrorJson("Failed to send order email")))
    ensures h.sent.Some? ==> (env.send.Delivered? <==> h.response.status == 200)
    ensures h.sent.Some? && env.send.Delivered? ==> h.response == Response(200, MessageJson("Order email sent successfully", env.send.data))
    ensures h.sent.Some? ==> (env.send.SendThrew? <==> h.response == InternalError)
  {
    match body
    case None => Handled(InternalError, None)
    case Some(req) =>
      if !HasRequiredFields(req) then Handled(MissingFields, None)
      else if !Configured(env) then Handled(NotConfigured, None)
      else Dispatch(OrderEmail(req, env), env, "Failed to send order email", "Order email sent successfully")
  }

  /** The guard runs before the configuration check: a request missing a field
      gets 400 whatever the environment, and "not configured" needs a complete request. */
  lemma GuardBeforeConfiguration(req: OrderRequest, env: Env, env': Env)
    ensures !HasRequiredFields(req) ==> Post(Some(req), env).response == Post(Some(req), env').response == MissingFields
    ensures Post(Some(req), env).response == NotConfigured ==> HasRequiredFields(req)
  {
  }

  /** The template renders an order e-mail: the order heading and section title, the
      composed message verbatim, and a platform line exactly when a platform was given. */
  lemma OrderTemplateRendering(req: OrderRequest, env: Env)
    requires HasRequiredFields(req)
    ensures var r := Render(OrderEmail(req, env).template);
      && r.heading == OrderHeading && r.bodyTitle == "Order Details:"
      && r.body == OrderMessage(req)
      && (r.serviceLine.Some? <==> Truthy(req.platform))
      && r.nameLine == "Name: " + req.firstName.value + " " + req.lastName.value
  {
  }

  // ---------------------------------------------------------------------------
  // The message, line by line

  lemma JoinOfTitle()
    ensures Join(["", "Order Details:"], '\n') == "\nOrder Details:"
  {
    var head := ["", "Order Details:"];
    assert head[1..] == ["Order Details:"];
  }

  lemma RegroupMessage(h: string, s: string, t: string)
    requires h == "\nOrder Details:"
    ensures h + ['\n'] + (s + ['\n'] + t) == "\nOrder Details:\n" + s + "\n" + t
  {
  }

  /** The message holds the joined order summary between its title and the total. */
  lemma MessageEmbedsSummary(req: OrderRequest)
    requires HasRequiredFields(req)
    ensures OrderMessage(req)
         == "\nOrder Details:\n" + OrderSummary(req.cart.value) + "\n" + Join(DeliveryLines(req), '\n')
  {
    var summary, tail := SummaryLines(req.cart.value), DeliveryLines(req);
    JoinAppend3(["", "Order Details:"], summary, tail, '\n');
    JoinOfTitle();
    RegroupMessage(Join(["", "Order Details:"], '\n'), Join(summary, '\n'), Join(tail, '\n'));
  }

  lemma NoNewlineInNumber(i: int)
    ensures '\n' !in IntToString(i)
  {
    var s := IntToString(i);
    if i < 0 {
      var t := NatToString(-i);
      assert s == "-" + t;
      assert forall k :: 0 <= k < |s| ==> s[k] == '-' || IsDigit(s[k]) by {
        forall k | 0 <= k < |s| ensures s[k] == '-' || IsDigit(s[k]) {
          if k > 0 { assert s[k] == t[k - 1]; }
        }
      }
    }
  }

  /** No cart item's title or price holds a newline. */
  predicate SingleLineItems(cart: seq<CartItem>) {
    forall i :: 0 <= i < |cart| ==> '\n' !in cart[i].title && '\n' !in cart[i].price
  }

  /** Every text the message embeds is free of newlines. */
  predicate SingleLineFields(req: OrderRequest)
    requires HasRequiredFields(req)
  {
    && SingleLineItems(req.cart.value)
    && '\n' !in Interpolate(req.total) && '\n' !in Interpolate(req.platform)
    && '\n' !in DeliveryAddress(req) && '\n' !in Or(req.phoneNumber, "Not provided")
    && '\n' !in Or(req.notes, "None")
  }

  lemma SummaryLinesSingle(cart: seq<CartItem>)
    requires SingleLineItems(cart)
    ensures SeparatorFree(SummaryLines(cart), '\n')
  {
    forall i | 0 <= i < |cart| ensures '\n' !in SummaryLine(cart[i]) {
      NoNewlineInNumber(cart[i].quantity);
    }
  }

  /** Splitting the message at its newlines gives back exactly its lines: one summary
      line per cart item, in cart order, and the delivery block with its fallbacks. */
  lemma OrderMessageLines(req: OrderRequest)
    requires HasRequiredFields(req) && SingleLineFields(req)
    ensures Split(OrderMessage(req), '\n') == MessageLines(req)
  {
    SummaryLinesSingle(req.cart.value);
    var tail := DeliveryLines(req);
    assert SeparatorFree(tail, '\n');
    SeparatorFreeAppend(["", "Order Details:"], SummaryLines(req.cart.value), '\n');
    SeparatorFreeAppend(["", "Order Details:"] + SummaryLines(req.cart.value), tail, '\n');
    SplitJoin(MessageLines(req), '\n');
  }
}
