/** components/CheckoutModal.tsx: the three-step checkout dialog of the store.
    Step 1 asks for the buyer's e-mail and names, step 2 for the delivery
    details, step 3 shows a review and places the order. The dialog's state
    is a class; the cart store's items and total are inputs of the handlers
    that read them, and its `clearCart` and the `onClose` prop are recorded
    in the effects log. A handler is called only from a control the current
    view renders and does not disable. */
module CheckoutModal {
  import opened JsValues
  import opened CartItems
  import opened OrderRoute
  import opened OrderForms
  import opened Effects

  // ---------------------------------------------------------------------------
  // Steps

  /** `handleNext`: advance while below the last step. */
  function NextStep(step: int): int {
    if step < 3 then step + 1 else step
  }

  /** `handleBack`: retreat while above the first step. */
  function BackStep(step: int): int {
    if step > 1 then step - 1 else step
  }

  /** Neither handler leaves the range 1..3. */
  lemma StepsStayInRange(step: int)
    requires 1 <= step <= 3
    ensures 1 <= NextStep(step) <= 3 && 1 <= BackStep(step) <= 3
    ensures NextStep(step) == step <==> step == 3
    ensures BackStep(step) == step <==> step == 1
  {
  }

  /** Next then Back returns to the step one started from, below the last step;
      Back then Next does so above the first. */
  lemma NextThenBack(step: int)
    ensures 1 <= step <= 2 ==> BackStep(NextStep(step)) == step
    ensures 2 <= step <= 3 ==> NextStep(BackStep(step)) == step
  {
  }

  // ---------------------------------------------------------------------------
  // Buttons and views

  /** The Continue button of step 1: disabled while an e-mail or a name is empty. */
  predicate ContinueDisabled(form: OrderForm) {
    form.email == "" || form.firstName == "" || form.lastName == ""
  }

  /** The Review Order button of step 2: disabled while the delivery e-mail is empty. */
  predicate ReviewDisabled(form: OrderForm) {
    form.deliveryEmail == ""
  }

  /** The Place Order button of step 3. */
  predicate PlaceOrderDisabled(isSubmitting: bool, items: seq<CartItem>) {
    isSubmitting || |items| == 0
  }

  /** An enabled Continue button means the route's guard will accept the buyer's
      part of the order; with an enabled Place Order button it accepts all of it. */
  lemma ContinueEnablesOrder(form: OrderForm, items: seq<CartItem>, totalText: string)
    ensures !ContinueDisabled(form) && !PlaceOrderDisabled(false, items)
        <==> HasRequiredFields(Payload(form, Some(items), totalText))
  {
    PayloadGuard(form, Some(items), totalText);
  }

  /** The inputs each step renders; the review step renders none, and no step renders
      the preferred-contact field. */
  function StepInputs(step: int): (inputs: set<Input>)
    ensures PreferredContactInput !in inputs
    ensures step == 1 ==> EmailInput in inputs && FirstNameInput in inputs && LastNameInput in inputs
    ensures step == 2 ==> DeliveryEmailInput in inputs
    ensures step != 1 ==> EmailInput !in inputs && FirstNameInput !in inputs && LastNameInput !in inputs
    ensures step != 2 ==> DeliveryEmailInput !in inputs
    ensures step != 1 && step != 2 ==> inputs == {}
  {
    if step == 1 then {EmailInput, FirstNameInput, LastNameInput}
    else if step == 2 then {PlatformInput, DeliveryEmailInput, PhoneNumberInput, NotesInput}
    else {}
  }

  datatype View = Closed | SuccessView | BuyerStep | DeliveryStep | ReviewStep

  /** What the dialog shows: nothing when closed, the success view over any step,
      otherwise steps 1 and 2 their own forms and any other step the review. */
  function ViewOf(isOpen: bool, showSuccess: bool, step: int): (v: View)
    ensures v == Closed <==> !isOpen
    ensures isOpen ==> (v == SuccessView <==> showSuccess)
    ensures isOpen && !showSuccess ==> (v == BuyerStep <==> step == 1)
    ensures isOpen && !showSuccess ==> (v == DeliveryStep <==> step == 2)
    ensures isOpen && !showSuccess ==> (v == ReviewStep <==> step != 1 && step != 2)
  {
    if !isOpen then Closed
    else if showSuccess then SuccessView
    else if step == 1 then BuyerStep
    else if step == 2 then DeliveryStep
    else ReviewStep
  }

  /** The header's title; the step dots are shown only beside "Checkout". */
  function Title(showSuccess: bool): (t: string)
    ensures t == "Success" <==> showSuccess
  {
    if showSuccess then "Success" else "Checkout"
  }

  // ---------------------------------------------------------------------------
  // The dialog

  class CheckoutModal {
    var step: int
    var isSubmitting: bool
    var showSuccess: bool
    var formData: OrderForm
    /** Reset callbacks scheduled by successful orders and not yet run. */
    var pendingResets: nat
    var effects: seq<Effect>

    /** The step is in range, and a step is reached only with the earlier
        steps' required fields filled in. */
    ghost predicate Valid()
      reads this
    {
      && 1 <= step <= 3
      && (step >= 2 ==> !ContinueDisabled(formData))
      && (step == 3 ==> !ReviewDisabled(formData))
    }

    constructor()
      ensures Valid()
      ensures step == 1 && !isSubmitting && !showSuccess && formData == InitialForm
      ensures pendingResets == 0 && effects == []
    {
      step := 1;
      isSubmitting := false;
      showSuccess := false;
      formData := InitialForm;
      pendingResets := 0;
      effects := [];
    }

    /** `handleChange` from an input of the current step. */
    method HandleChange(input: Input, value: string)
      requires Valid() && !showSuccess && input in StepInputs(step)
      modifies this
      ensures Valid()
      ensures formData == WithField(old(formData), input, value)
      ensures step == old(step) && isSubmitting == old(isSubmitting) && showSuccess == old(showSuccess)
      ensures pendingResets == old(pendingResets) && effects == old(effects)
    {
      formData := WithField(formData, input, value);
      if step == 2 {
        assert Get(formData, EmailInput) == Get(old(formData), EmailInput);
        assert Get(formData, FirstNameInput) == Get(old(formData), FirstNameInput);
        assert Get(formData, LastNameInput) == Get(old(formData), LastNameInput);
      }
    }

    /** `handleNext`, from the enabled Continue or Review Order button. */
    method HandleNext()
      requires Valid() && !showSuccess
      requires step == 1 ==> !ContinueDisabled(formData)
      requires step == 2 ==> !ReviewDisabled(formData)
      modifies this
      ensures Valid()
      ensures step == NextStep(old(step))
      ensures formData == old(formData) && isSubmitting == old(isSubmitting) && showSuccess == old(showSuccess)
      ensures pendingResets == old(pendingResets) && effects == old(effects)
    {
      if step < 3 {
        step := step + 1;
      }
    }

    /** `handleBack`, from the Back button of step 2 or 3. */
    method HandleBack()
      requires Valid() && !showSuccess
      modifies this
      ensures Valid()
      ensures step == BackStep(old(step))
      ensures formData == old(formData) && isSubmitting == old(isSubmitting) && showSuccess == old(showSuccess)
      ensures pendingResets == old(pendingResets) && effects == old(effects)
    {
      if step > 1 {
        step := step - 1;
      }
    }

    /** `handleSubmit` up to the awaited fetch, from the review step while no order is
        pending (Place Order is disabled while submitting). `items` and
        `totalText` are the cart store's items and its total as `toFixed(2)` prints it.
        An empty cart sends nothing and changes nothing; otherwise the order is posted,
        and the route will accept it. */
    method BeginSubmit(items: seq<CartItem>, totalText: string) returns (sent: bool)
      requires Valid() && !showSuccess && step == 3 && !isSubmitting
      modifies this
      ensures Valid()
      ensures sent <==> |items| > 0
      ensures sent ==> isSubmitting && effects == old(effects) + [PostOrder(Payload(formData, Some(items), totalText))]
      ensures sent ==> HasRequiredFields(Payload(formData, Some(items), totalText))
      ensures !sent ==> !isSubmitting && effects == old(effects)
      ensures step == old(step) && formData == old(formData) && showSuccess == old(showSuccess)
      ensures pendingResets == old(pendingResets)
    {
      if |items| == 0 {
        return false;
      }
      isSubmitting := true;
      effects := effects + [PostOrder(Payload(formData, Some(items), totalText))];
      PayloadGuard(formData, Some(items), totalText);
      sent := true;
    }

    /** The rest of `handleSubmit` once the fetch settles. An ok response shows the
        success view, clears the cart at once and schedules the reset; any other outcome
        changes nothing but the submitting flag, which ends false in every case. */
    method SettleSubmit(outcome: FetchOutcome)
      requires Valid() && isSubmitting
      modifies this
      ensures Valid() && !isSubmitting
      ensures step == old(step) && formData == old(formData)
      ensures outcome.Ok? ==> showSuccess && pendingResets == old(pendingResets) + 1
      ensures outcome.Ok? ==> effects == old(effects) + [Cart(CartClear)]
      ensures !outcome.Ok? ==> showSuccess == old(showSuccess) && pendingResets == old(pendingResets)
      ensures !outcome.Ok? ==> effects == old(effects)
    {
      if outcome.Ok? {
        showSuccess := true;
        effects := effects + [Cart(CartClear)];
        pendingResets := pendingResets + 1;
      }
      isSubmitting := false;
    }

    /** The delayed callback of a successful order: back to step 1 with the initial
        form, success view hidden, and the dialog asked to close. */
    method ResetTimerFires()
      requires Valid() && pendingResets > 0
      modifies this
      ensures Valid()
      ensures !showSuccess && step == 1 && formData == InitialForm
      ensures pendingResets == old(pendingResets) - 1 && effects == old(effects) + [CloseModal]
      ensures isSubmitting == old(isSubmitting)
    {
      showSuccess := false;
      step := 1;
      formData := InitialForm;
      effects := effects + [CloseModal];
      pendingResets := pendingResets - 1;
    }

    /** The backdrop and the close button call `onClose`; the dialog keeps its state. */
    method Close()
      requires Valid()
      modifies this
      ensures Valid()
      ensures effects == old(effects) + [CloseModal]
      ensures step == old(step) && formData == old(formData) && isSubmitting == old(isSubmitting)
      ensures showSuccess == old(showSuccess) && pendingResets == old(pendingResets)
    {
      effects := effects + [CloseModal];
    }
  }
}
