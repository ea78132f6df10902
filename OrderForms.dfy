/** The buyer form shared by components/CheckoutModal.tsx and
    app/store/checkout/page.tsx: its fields, its initial value, the
    `handleChange` update and the order payload both components POST. */
module OrderForms {
  import opened JsValues
  import opened CartItems
  import opened OrderRoute
  import Mail
  import Effects

  datatype OrderForm = OrderForm(
    email: string,
    firstName: string,
    lastName: string,
    platform: string,
    deliveryEmail: string,
    preferredContact: string,
    phoneNumber: string,
    notes: string)

  /** The form's initial value, to which both components also reset it after an order. */
  const InitialForm := OrderForm("", "", "", "email", "", "email", "", "")

  /** The `name` of an input, select or textarea of the form. */
  datatype Input =
    | EmailInput | FirstNameInput | LastNameInput | PlatformInput
    | DeliveryEmailInput | PreferredContactInput | PhoneNumberInput | NotesInput

  function Get(form: OrderForm, input: Input): string {
    match input
    case EmailInput => form.email
    case FirstNameInput => form.firstName
    case LastNameInput => form.lastName
    case PlatformInput => form.platform
    case DeliveryEmailInput => form.deliveryEmail
    case PreferredContactInput => form.preferredContact
    case PhoneNumberInput => form.phoneNumber
    case NotesInput => form.notes
  }

  /** `handleChange`: `{ ...formData, [name]: value }`. */
  function WithField(form: OrderForm, input: Input, value: string): (r: OrderForm)
    ensures Get(r, input) == value
    ensures forall other :: other != input ==> Get(r, other) == Get(form, other)
  {
    match input
    case EmailInput => form.(email := value)
    case FirstNameInput => form.(firstName := value)
    case LastNameInput => form.(lastName := value)
    case PlatformInput => form.(platform := value)
    case DeliveryEmailInput => form.(deliveryEmail := value)
    case PreferredContactInput => form.(preferredContact := value)
    case PhoneNumberInput => form.(phoneNumber := value)
    case NotesInput => form.(notes := value)
  }

  /** The JSON body both components POST: seven form fields unchanged, the cart store's
      items at submit time and the store's total as `toFixed(2)` printed it. */
  function Payload(form: OrderForm, items: Option<seq<CartItem>>, totalText: string): (p: OrderRequest)
    ensures p.firstName == Some(form.firstName) && p.lastName == Some(form.lastName)
    ensures p.email == Some(form.email) && p.deliveryEmail == Some(form.deliveryEmail)
    ensures p.platform == Some(form.platform) && p.phoneNumber == Some(form.phoneNumber)
    ensures p.notes == Some(form.notes)
    ensures p.cart == items && p.total == Some(totalText)
  {
    OrderRequest(Some(form.firstName), Some(form.lastName), Some(form.email), Some(form.deliveryEmail),
                 Some(form.platform), Some(form.phoneNumber), Some(form.notes), items, Some(totalText))
  }

  /** Step indicator `i` of a three-step checkout is lit at `step`: `step >= i`. */
  predicate IndicatorLit(step: int, i: int) {
    step >= i
  }

  /** The lit indicators are a prefix: an indicator is lit only when every earlier
      one is; at a step in range the last lit one is the step's own, and advancing a
      step lights exactly one more indicator, the new step's. */
  lemma LitIndicatorsPrefix(step: int, i: int, j: int)
    requires 1 <= step <= 3 && 1 <= j <= i <= 3
    ensures IndicatorLit(step, i) ==> IndicatorLit(step, j)
    ensures IndicatorLit(step, step) && (step < 3 ==> !IndicatorLit(step, step + 1))
    ensures step < 3 ==> (IndicatorLit(step + 1, i) <==> IndicatorLit(step, i) || i == step + 1)
  {
  }

  /** The order route accepts a payload exactly when the buyer's names and e-mail are
      filled in and the cart snapshot is non-empty. */
  lemma PayloadGuard(form: OrderForm, items: Option<seq<CartItem>>, totalText: string)
    ensures HasRequiredFields(Payload(form, items, totalText))
        <==> form.firstName != "" && form.lastName != "" && form.email != ""
             && items.Some? && |items.value| > 0
  {
  }

  /** A complete payload reaches the provider when it is configured, and the component
      then sees an ok response exactly when the provider delivers. */
  lemma CompletePayloadOutcome(form: OrderForm, items: seq<CartItem>, totalText: string, env: Mail.Env)
    requires form.firstName != "" && form.lastName != "" && form.email != "" && |items| > 0
    ensures var h := Post(Some(Payload(form, Some(items), totalText)), env);
      && h.response != Mail.MissingFields
      && (Mail.Configured(env) ==> h.sent.Some? && (Effects.OutcomeOf(h.response).Ok? <==> env.send.Delivered?))
  {
  }
}
