/** app/checkout/page.tsx: the stand-alone checkout page. It loads the cart
    saved in local storage, totals it, posts the order with the seven form
    fields, and shows either the confirmation, the empty-cart notice or the
    form. Its state is a class; the stored cart and the fetch's outcome are
    inputs of the handlers that read them. */
module Checkout {
  import opened JsValues
  import opened Text
  import opened CartItems
  import opened OrderRoute
  import opened Effects

  // ---------------------------------------------------------------------------
  // The total

  /** One line's amount, `parseFloat(price.replace('$', '')) * quantity`; NaN is None. */
  function LineTotal(item: CartItem): (t: Option<int>)
    ensures t.Some? <==> ParsePrice(item.price).Some?
    ensures t.Some? ==> t.value == ParsePrice(item.price).value * item.quantity
  {
    match ParsePrice(item.price)
    case None => None
    case Some(p) => Some(p * item.quantity)
  }

  /** Addition of numbers that may be NaN: NaN absorbs. */
  function AddTotals(a: Option<int>, b: Option<int>): (r: Option<int>)
    ensures r.Some? <==> a.Some? && b.Some?
    ensures r.Some? ==> r.value == a.value + b.value
  {
    if a.Some? && b.Some? then Some(a.value + b.value) else None
  }

  /** `calculateTotal`: `cart.reduce(..., 0)`, folding the lines in from the left.
      An empty cart totals 0, and with no negative quantity the total is never negative. */
  function CalculateTotal(cart: seq<CartItem>): (t: Option<int>)
    ensures |cart| == 0 ==> t == Some(0)
    ensures t.Some? && (forall i :: 0 <= i < |cart| ==> cart[i].quantity >= 0) ==> t.value >= 0
  {
    if |cart| == 0 then Some(0)
    else AddTotals(CalculateTotal(cart[..|cart| - 1]), LineTotal(cart[|cart| - 1]))
  }

  /** Appending an item adds exactly its line amount. */
  lemma TotalAppend(cart: seq<CartItem>, item: CartItem)
    ensures CalculateTotal(cart + [item]) == AddTotals(CalculateTotal(cart), LineTotal(item))
  {
    assert (cart + [item])[..|cart|] == cart;
  }

  /** The total of two carts put together is the sum of their totals. */
  lemma {:induction false} TotalConcat(a: seq<CartItem>, b: seq<CartItem>)
    ensures CalculateTotal(a + b) == AddTotals(CalculateTotal(a), CalculateTotal(b))
  {
    if |b| == 0 {
      assert a + b == a;
    } else {
      var init, last := b[..|b| - 1], b[|b| - 1];
      assert b == init + [last];
      assert a + b == (a + init) + [last];
      calc {
        CalculateTotal(a + b);
        { TotalAppend(a + init, last); }
        AddTotals(CalculateTotal(a + init), LineTotal(last));
        { TotalConcat(a, init); }
        AddTotals(AddTotals(CalculateTotal(a), CalculateTotal(init)), LineTotal(last));
        AddTotals(CalculateTotal(a), AddTotals(CalculateTotal(init), LineTotal(last)));
        { TotalAppend(init, last); }
        AddTotals(CalculateTotal(a), CalculateTotal(b));
      }
    }
  }

  /** Every price of the cart reads as a number. */
  predicate AllPriced(cart: seq<CartItem>) {
    forall i :: 0 <= i < |cart| ==> ParsePrice(cart[i].price).Some?
  }

  /** The sum of price × quantity over the lines, first line first: the reference
      definition the fold is checked against. */
  function SumOfLines(cart: seq<CartItem>): int
    requires AllPriced(cart)
  {
    if |cart| == 0 then 0
    else ParsePrice(cart[0].price).value * cart[0].quantity + SumOfLines(cart[1..])
  }

  lemma {:induction false} SumOfLinesAppend(cart: seq<CartItem>, item: CartItem)
    requires AllPriced(cart + [item])
    ensures AllPriced(cart) && ParsePrice(item.price).Some?
    ensures SumOfLines(cart + [item]) == SumOfLines(cart) + ParsePrice(item.price).value * item.quantity
  {
    assert forall i :: 0 <= i < |cart| ==> (cart + [item])[i] == cart[i];
    assert (cart + [item])[|cart|] == item;
    if |cart| > 0 {
      assert (cart + [item])[1..] == cart[1..] + [item];
      SumOfLinesAppend(cart[1..], item);
    }
  }

  /** The total is the sum over the lines of price × quantity when every price reads
      as a number, and NaN as soon as one does not. */
  lemma {:induction false} TotalIsSumOfLines(cart: seq<CartItem>)
    ensures AllPriced(cart) ==> CalculateTotal(cart) == Some(SumOfLines(cart))
    ensures !AllPriced(cart) ==> CalculateTotal(cart) == None
  {
    if |cart| > 0 {
      var init, last := cart[..|cart| - 1], cart[|cart| - 1];
      assert cart == init + [last];
      TotalIsSumOfLines(init);
      if AllPriced(cart) {
        SumOfLinesAppend(init, last);
      } else if AllPriced(init) {
        assert !ParsePrice(last.price).Some?;
      }
    }
  }

  /** `total.toFixed(2)` for the whole-dollar totals the model computes. */
  function FormatTotal(t: Option<int>): (s: string)
    ensures s == "NaN" <==> t.None?
    ensures t.Some? ==> |s| > 3 && s[|s| - 3..] == ".00" && s[..|s| - 3] == IntToString(t.value)
  {
    match t
    case None => "NaN"
    case Some(n) => IntToString(n) + ".00"
  }

  /** Two of the store's products, the $50 one twice and the $100 one once, total $200. */
  lemma SampleTotal()
    ensures FormatTotal(CalculateTotal([CartItem(1, "HTML Starter Website", "$50", "", 2),
                                        CartItem(3, "JavaScript Dynamic Website", "$100", "", 1)])) == "200.00"
  {
    ParseFormattedPrice(50);
    ParseFormattedPrice(100);
    assert FormatPrice(50) == "$50";
    assert FormatPrice(100) == "$100";
    var cart := [CartItem(1, "HTML Starter Website", "$50", "", 2), CartItem(3, "JavaScript Dynamic Website", "$100", "", 1)];
    assert cart[..1] == [cart[0]];
    assert cart[..1][..0] == [];
    assert NatToString(200) == "200";
  }

  // ---------------------------------------------------------------------------
  // The form, the payload and the views

  datatype PageForm = PageForm(
    firstName: string,
    lastName: string,
    email: string,
    deliveryEmail: string,
    platform: string,
    phoneNumber: string,
    notes: string)

  /** Every field starts empty, the platform select on its "Select platform" option. */
  const InitialPageForm := PageForm("", "", "", "", "", "", "")

  /** The `name` of an input, select or textarea of the form. */
  datatype PageInput =
    | FirstNameField | LastNameField | EmailField | DeliveryEmailField
    | PlatformField | PhoneNumberField | NotesField

  function GetField(form: PageForm, input: PageInput): string {
    match input
    case FirstNameField => form.firstName
    case LastNameField => form.lastName
    case EmailField => form.email
    case DeliveryEmailField => form.deliveryEmail
    case PlatformField => form.platform
    case PhoneNumberField => form.phoneNumber
    case NotesField => form.notes
  }

  /** `handleInputChange`: `{ ...formData, [name]: value }`. */
  function WithPageField(form: PageForm, input: PageInput, value: string): (r: PageForm)
    ensures GetField(r, input) == value
    ensures forall other :: other != input ==> GetField(r, other) == GetField(form, other)
  {
    match input
    case FirstNameField => form.(firstName := value)
    case LastNameField => form.(lastName := value)
    case EmailField => form.(email := value)
    case DeliveryEmailField => form.(deliveryEmail := value)
    case PlatformField => form.(platform := value)
    case PhoneNumberField => form.(phoneNumber := value)
    case NotesField => form.(notes := value)
  }

  /** The JSON body: `{ ...formData, cart, total: calculateTotal().toFixed(2) }`. */
  function CheckoutPayload(form: PageForm, cart: seq<CartItem>): (p: OrderRequest)
    ensures p.firstName == Some(form.firstName) && p.lastName == Some(form.lastName)
    ensures p.email == Some(form.email) && p.deliveryEmail == Some(form.deliveryEmail)
    ensures p.platform == Some(form.platform) && p.phoneNumber == Some(form.phoneNumber)
    ensures p.notes == Some(form.notes)
    ensures p.cart == Some(cart) && p.total == Some(FormatTotal(CalculateTotal(cart)))
  {
    OrderRequest(Some(form.firstName), Some(form.lastName), Some(form.email), Some(form.deliveryEmail),
                 Some(form.platform), Some(form.phoneNumber), Some(form.notes), Some(cart),
                 Some(FormatTotal(CalculateTotal(cart))))
  }

  /** The address the confirmation names: `deliveryEmail || email`. */
  function ConfirmationAddress(form: PageForm): (a: string)
    ensures form.deliveryEmail != "" ==> a == form.deliveryEmail
    ensures form.deliveryEmail == "" ==> a == form.email
  {
    if form.deliveryEmail != "" then form.deliveryEmail else form.email
  }

  /** The page confirms the delivery address the order e-mail gives, and the route
      accepts the order exactly when the names and e-mail are filled in. */
  lemma ConfirmationMatchesOrder(form: PageForm, cart: seq<CartItem>)
    requires |cart| > 0
    ensures HasRequiredFields(CheckoutPayload(form, cart))
        <==> form.firstName != "" && form.lastName != "" && form.email != ""
    ensures HasRequiredFields(CheckoutPayload(form, cart)) ==>
        DeliveryAddress(CheckoutPayload(form, cart)) == ConfirmationAddress(form)
  {
  }

  datatype PageView = OrderPlacedView(address: string) | EmptyCartView | CheckoutFormView

  /** What the page renders: the confirmation once the order is placed, even over an
      empty cart; else the empty-cart notice for an empty cart; else the form. */
  function ViewOf(orderPlaced: bool, cart: seq<CartItem>, form: PageForm): (v: PageView)
    ensures orderPlaced ==> v == OrderPlacedView(ConfirmationAddress(form))
    ensures !orderPlaced ==> (v == EmptyCartView <==> |cart| == 0)
    ensures v == CheckoutFormView <==> !orderPlaced && |cart| > 0
  {
    if orderPlaced then OrderPlacedView(ConfirmationAddress(form))
    else if |cart| == 0 then EmptyCartView
    else CheckoutFormView
  }

  // ---------------------------------------------------------------------------
  // The page

  class CheckoutPage {
    var cart: seq<CartItem>
    var formData: PageForm
    var isSubmitting: bool
    var orderPlaced: bool
    var effects: seq<Effect>

    /** A placed order is no longer being submitted. */
    ghost predicate Valid()
      reads this
    {
      orderPlaced ==> !isSubmitting
    }

    constructor()
      ensures Valid()
      ensures cart == [] && formData == InitialPageForm && !isSubmitting && !orderPlaced && effects == []
    {
      cart := [];
      formData := InitialPageForm;
      isSubmitting := false;
      orderPlaced := false;
      effects := [];
    }

    /** The mount effect: a stored cart (None when there is none, or it is the
        empty string) replaces the empty one. */
    method LoadSavedCart(saved: Option<seq<CartItem>>)
      requires Valid()
      modifies this
      ensures Valid()
      ensures saved.Some? ==> cart == saved.value
      ensures saved.None? ==> cart == old(cart)
      ensures formData == old(formData) && isSubmitting == old(isSubmitting)
      ensures orderPlaced == old(orderPlaced) && effects == old(effects)
    {
      if saved.Some? {
        cart := saved.value;
      }
    }

    /** `handleInputChange`. */
    method HandleInputChange(input: PageInput, value: string)
      requires Valid()
      modifies this
      ensures Valid()
      ensures formData == WithPageField(old(formData), input, value)
      ensures cart == old(cart) && isSubmitting == old(isSubmitting)
      ensures orderPlaced == old(orderPlaced) && effects == old(effects)
    {
      formData := WithPageField(formData, input, value);
    }

    /** `handleSubmit` up to the awaited fetch, from the form view's enabled button. */
    method BeginSubmit()
      requires Valid() && ViewOf(orderPlaced, cart, formData) == CheckoutFormView && !isSubmitting
      modifies this
      ensures Valid()
      ensures isSubmitting && effects == old(effects) + [PostOrder(CheckoutPayload(formData, cart))]
      ensures cart == old(cart) && formData == old(formData) && orderPlaced == old(orderPlaced)
    {
      isSubmitting := true;
      effects := effects + [PostOrder(CheckoutPayload(formData, cart))];
    }

    /** The rest of `handleSubmit`. An ok response places the order and removes the
        stored cart but keeps the cart in memory; a failure alerts. The submitting flag
        ends false whatever the outcome. */
    method SettleSubmit(outcome: FetchOutcome)
      requires Valid() && isSubmitting
      modifies this
      ensures Valid() && !isSubmitting
      ensures cart == old(cart) && formData == old(formData)
      ensures outcome.Ok? ==> orderPlaced && effects == old(effects) + [RemoveStoredCart]
      ensures orderPlaced <==> outcome.Ok?
      ensures outcome.NotOk? ==>
        effects == old(effects) + [Alert("Error placing order: " + Or(outcome.error, "Unknown error"))]
      ensures outcome.Threw? ==> effects == old(effects) + [Alert("Error placing order. Please try again.")]
    {
      match outcome {
        case Ok =>
          orderPlaced := true;
          effects := effects + [RemoveStoredCart];
        case NotOk(error) =>
          effects := effects + [Alert("Error placing order: " + Or(error, "Unknown error"))];
        case Threw =>
          effects := effects + [Alert("Error placing order. Please try again.")];
      }
      isSubmitting := false;
    }
  }
}
