/** The cart line item and catalogue product records (types/index.ts), and
    the price strings they carry. The cart store that owns the line items
    (contexts/CartContext) is not part of this model; components only ever
    issue requests to it, recorded as `CartCall` values. */
module CartItems {
  import opened JsValues
  import opened Text

  /** A product of the store catalogue (types/index.ts:36-46, the fields the core reads). */
  datatype Product = Product(id: int, title: string, price: string, image: string, category: string)

  /** A cart line item as the cart store hands it out and as it travels in an order payload. */
  datatype CartItem = CartItem(id: int, title: string, price: string, image: string, quantity: int)

  /** A request to the cart store. What the store does with it is not modelled. */
  datatype CartCall =
    | CartAdd(product: Product)
    | CartUpdateQuantity(id: int, quantity: int)
    | CartRemove(id: int)
    | CartClear

  /** `parseFloat(price.replace('$', ''))` on the price strings the catalogue uses:
      the first '$' is dropped and the rest must be a plain digit string;
      anything else reads as NaN (None). */
  function ParsePrice(price: string): Option<nat> {
    var digits := RemoveFirst(price, '$');
    if digits != "" && IsDigits(digits) then Some(DigitsValue(digits)) else None
  }

  /** A price written the way the catalogue writes it, "$" and the whole dollars. */
  function FormatPrice(dollars: nat): string {
    "$" + NatToString(dollars)
  }

  /** A dollar sign followed by a digit string reads as the digits' value. */
  lemma DollarPrice(digits: string)
    requires digits != "" && IsDigits(digits)
    ensures ParsePrice("$" + digits) == Some(DigitsValue(digits))
  {
    assert ("$" + digits)[1..] == digits;
  }

  /** Parsing a catalogue-style price gives back its amount. */
  lemma ParseFormattedPrice(dollars: nat)
    ensures ParsePrice(FormatPrice(dollars)) == Some(dollars)
  {
    var p := FormatPrice(dollars);
    assert p[0] == '$';
    assert RemoveFirst(p, '$') == NatToString(dollars);
    DigitsValueOfNatToString(dollars);
  }
}
