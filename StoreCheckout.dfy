/** app/store/checkout/page.tsx: the store's checkout page. One form walks
    through three steps (buyer, delivery, review); submitting it advances
    a step, and at the last step checks the cart and posts the order. The
    page's state is a class; the cart store's items and total are inputs of
    the submit handler, and the awaited fetch's outcome is a third input. */
module StoreCheckout {
  import opened JsValues
  import opened CartItems
  import opened OrderRoute
  import opened OrderForms
  import opened Effects

  /** `validateCart`: the cart store holds at least one item. */
  function ValidateCart(items: Option<seq<CartItem>>): (ok: bool)
    ensures !ok <==> items.None? || |items.value| == 0
  {
    !(items.None? || |items.value| == 0)
  }

  /** A cart that passes `validateCart` is one the order route accepts. */
  lemma ValidCartPassesGuard(form: OrderForm, items: Option<seq<CartItem>>, totalText: string)
    requires form.firstName != "" && form.lastName != "" && form.email != ""
    ensures ValidateCart(items) <==> HasRequiredFields(Payload(form, items, totalText))
  {
    PayloadGuard(form, items, totalText);
  }

  /** The submit button's label. */
  function SubmitLabel(step: int): (text: string)
    ensures text == "Complete Order" <==> step == 3
    ensures step != 3 ==> text == "Continue"
  {
    if step == 3 then "Complete Order" else "Continue"
  }

  /** The Previous button is rendered above the first step only. */
  predicate PreviousOffered(step: int) {
    step > 1
  }

  /** The width, in percent, of the progress bar: a third per step, full from step 3 on. */
  function ProgressWidth(step: int): (percent: nat)
    ensures 1 <= step <= 3 ==> percent == [33, 66, 100][step - 1]
    ensures step != 1 && step != 2 ==> percent == 100
  {
    if step == 1 then 33 else if step == 2 then 66 else 100
  }

  /** The progress bar and the step indicators above it agree: indicator `i` is lit
      exactly when the bar covers at least `i` thirds, so the bar grows with every step. */
  lemma ProgressMatchesIndicators(step: int)
    requires 1 <= step <= 3
    ensures forall i :: 1 <= i <= 3 ==> (IndicatorLit(step, i) <==> ProgressWidth(step) >= 33 * i)
    ensures step < 3 ==> ProgressWidth(step) < ProgressWidth(step + 1)
  {
  }

  class StoreCheckoutPage {
    var step: int
    var formData: OrderForm
    var showCompletionModal: bool
    var showEmptyCartModal: bool
    /** `clearCart` callbacks scheduled by successful orders and not yet run. */
    var pendingClears: nat
    var effects: seq<Effect>

    ghost predicate Valid()
      reads this
    {
      1 <= step <= 3
    }

    constructor()
      ensures Valid()
      ensures step == 1 && formData == InitialForm && !showCompletionModal && !showEmptyCartModal
      ensures pendingClears == 0 && effects == []
    {
      step := 1;
      formData := InitialForm;
      showCompletionModal := false;
      showEmptyCartModal := false;
      pendingClears := 0;
      effects := [];
    }

    /** `handleChange`; the page renders every input of the form at some step. */
    method HandleChange(input: Input, value: string)
      requires Valid()
      modifies this
      ensures Valid()
      ensures formData == WithField(old(formData), input, value)
      ensures step == old(step) && showCompletionModal == old(showCompletionModal)
      ensures showEmptyCartModal == old(showEmptyCartModal)
      ensures pendingClears == old(pendingClears) && effects == old(effects)
    {
      formData := WithField(formData, input, value);
    }

    /** `handleSubmit`, with the fetch's outcome as an input. Below the last step it
        advances without consulting the cart. At the last step an empty cart opens the
        empty-cart modal and sends nothing; otherwise the order is posted. An ok response
        opens the completion modal, resets the form to its initial value and schedules
        the cart's clearing; the step stays. A failure keeps the form and alerts. */
    method HandleSubmit(items: Option<seq<CartItem>>, totalText: string, outcome: FetchOutcome)
      requires Valid()
      modifies this
      ensures Valid()
      ensures old(step) != 3 ==> step == old(step) + 1
      ensures old(step) != 3 || !ValidateCart(items) ==>
        && formData == old(formData) && effects == old(effects) && pendingClears == old(pendingClears)
        && showCompletionModal == old(showCompletionModal)
      ensures old(step) != 3 ==> showEmptyCartModal == old(showEmptyCartModal)
      ensures old(step) == 3 ==> step == 3
      ensures old(step) == 3 && !ValidateCart(items) ==> showEmptyCartModal
      ensures old(step) == 3 && ValidateCart(items) ==>
        var sent := PostOrder(Payload(old(formData), items, totalText));
        && showEmptyCartModal == old(showEmptyCartModal)
        && (outcome.Ok? ==>
              && showCompletionModal && formData == InitialForm && pendingClears == old(pendingClears) + 1
              && effects == old(effects) + [sent])
        && (!outcome.Ok? ==>
              && showCompletionModal == old(showCompletionModal) && formData == old(formData)
              && pendingClears == old(pendingClears))
        && (outcome.NotOk? ==>
              effects == old(effects) + [sent, Alert("Error sending order details: " + Or(outcome.error, "Unknown error"))])
        && (outcome.Threw? ==>
              effects == old(effects) + [sent, Alert("Error sending order details. Please try again.")])
    {
      if step == 3 && !ValidateCart(items) {
        showEmptyCartModal := true;
        return;
      }
      if step == 3 {
        effects := effects + [PostOrder(Payload(formData, items, totalText))];
        match outcome
        case Ok =>
          showCompletionModal := true;
          formData := InitialForm;
          pendingClears := pendingClears + 1;
        case NotOk(error) =>
          effects := effects + [Alert("Error sending order details: " + Or(error, "Unknown error"))];
        case Threw =>
          effects := effects + [Alert("Error sending order details. Please try again.")];
      } else {
        step := step + 1;
      }
    }

    /** The Previous button. */
    method Previous()
      requires Valid() && PreviousOffered(step)
      modifies this
      ensures Valid()
      ensures step == old(step) - 1
      ensures formData == old(formData) && showCompletionModal == old(showCompletionModal)
      ensures showEmptyCartModal == old(showEmptyCartModal)
      ensures pendingClears == old(pendingClears) && effects == old(effects)
    {
      step := step - 1;
    }

    /** The delayed `clearCart` of a successful order. */
    method ClearTimerFires()
      requires Valid() && pendingClears > 0
      modifies this
      ensures Valid()
      ensures pendingClears == old(pendingClears) - 1 && effects == old(effects) + [Cart(CartClear)]
      ensures step == old(step) && formData == old(formData)
      ensures showCompletionModal == old(showCompletionModal) && showEmptyCartModal == old(showEmptyCartModal)
    {
      pendingClears := pendingClears - 1;
      effects := effects + [Cart(CartClear)];
    }

    /** "Return to Store" in the completion modal. */
    method CloseCompletionModal()
      requires Valid() && showCompletionModal
      modifies this
      ensures Valid()
      ensures !showCompletionModal && effects == old(effects) + [Navigate("/store")]
      ensures step == old(step) && formData == old(formData)
      ensures showEmptyCartModal == old(showEmptyCartModal) && pendingClears == old(pendingClears)
    {
      showCompletionModal := false;
      effects := effects + [Navigate("/store")];
    }

    /** "Return to Store" in the empty-cart modal. */
    method CloseEmptyCartModal()
      requires Valid() && showEmptyCartModal
      modifies this
      ensures Valid()
      ensures !showEmptyCartModal && effects == old(effects) + [Navigate("/store")]
      ensures step == old(step) && formData == old(formData)
      ensures showCompletionModal == old(showCompletionModal) && pendingClears == old(pendingClears)
    {
      showEmptyCartModal := false;
      effects := effects + [Navigate("/store")];
    }
  }
}
