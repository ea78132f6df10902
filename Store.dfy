/** app/store/page.tsx: the store page. A category bar filters the constant
    catalogue; each product card adds its product to the cart; a cart button
    shows a badge and opens the cart dialog, whose rows ask the cart store
    for quantity changes and removals, and whose footer shows the total and
    leads to the checkout. The page's own state is a class; the cart store's
    items are inputs of the members that read them. */
module Store {
  import opened JsValues
  import opened Text
  import opened CartItems
  import opened Seqs
  import opened Effects

  // ---------------------------------------------------------------------------
  // The catalogue and its filter

  /** The ids of the category buttons, in bar order. */
  const CategoryIds: seq<string> := ["all", "websites", "templates", "mobile"]

  const ComingSoon := "/assets/projects/ComingSoon.png"

  /** The four products the page lists. */
  const Catalogue: seq<Product> := [
    Product(1, "HTML Starter Website", "$50", ComingSoon, "websites"),
    Product(2, "CSS Enhanced Website", "$75", ComingSoon, "templates"),
    Product(3, "JavaScript Dynamic Website", "$100", ComingSoon, "websites"),
    Product(4, "Swift iOS App Template", "$150", ComingSoon, "mobile")
  ]

  /** The filter's test: the product is of the category. */
  function InCategory(category: string): Product -> bool {
    (p: Product) => p.category == category
  }

  /** `filteredProducts` over a product list: the whole list for 'all', otherwise the
      products of exactly that category. */
  function FilteredProducts(products: seq<Product>, category: string): (r: seq<Product>)
    ensures category == "all" ==> r == products
    ensures category != "all" ==> forall p :: p in r <==> p in products && p.category == category
  {
    if category == "all" then products else Filter(products, InCategory(category))
  }

  /** A category other than 'all' keeps list order and the multiplicity of every product
      it lets through. */
  lemma FilteredInOrder(products: seq<Product>, category: string, p: Product)
    requires category != "all"
    ensures IsSubsequence(FilteredProducts(products, category), products)
    ensures multiset(FilteredProducts(products, category))[p]
         == if p.category == category then multiset(products)[p] else 0
  {
    FilterIsSubsequence(products, InCategory(category));
    FilterCounts(products, InCategory(category), p);
  }

  /** Every button of the category bar shows at least one product. */
  lemma EveryCategoryShowsProducts(id: string)
    requires id in CategoryIds
    ensures |FilteredProducts(Catalogue, id)| > 0
  {
    if id == "websites" {
      WebsitesShown();
    } else if id == "templates" {
      TemplatesShown();
    } else if id == "mobile" {
      MobileShown();
    }
  }

  /** The catalogue from its `k`-th product on. */
  lemma CatalogueTails()
    ensures Catalogue[1..] == [Catalogue[1], Catalogue[2], Catalogue[3]]
    ensures Catalogue[1..][1..] == [Catalogue[2], Catalogue[3]]
    ensures Catalogue[1..][1..][1..] == [Catalogue[3]]
    ensures Catalogue[1..][1..][1..][1..] == []
  {
  }

  /** The Websites button shows the first and the third product. */
  lemma WebsitesShown()
    ensures FilteredProducts(Catalogue, "websites") == [Catalogue[0], Catalogue[2]]
  {
    var c, keep := Catalogue, InCategory("websites");
    CatalogueTails();
    assert Filter(c[1..][1..][1..], keep) == [];
    assert Filter(c[1..][1..], keep) == [c[2]];
    assert Filter(c[1..], keep) == [c[2]];
  }

  /** The Templates button shows the second product only. */
  lemma TemplatesShown()
    ensures FilteredProducts(Catalogue, "templates") == [Catalogue[1]]
  {
    var c, keep := Catalogue, InCategory("templates");
    CatalogueTails();
    assert Filter(c[1..][1..][1..], keep) == [];
    assert Filter(c[1..][1..], keep) == [];
    assert Filter(c[1..], keep) == [c[1]];
  }

  /** The Mobiles button shows the fourth product only. */
  lemma MobileShown()
    ensures FilteredProducts(Catalogue, "mobile") == [Catalogue[3]]
  {
    var c, keep := Catalogue, InCategory("mobile");
    CatalogueTails();
    assert Filter(c[1..][1..][1..], keep) == [c[3]];
    assert Filter(c[1..][1..], keep) == [c[3]];
    assert Filter(c[1..], keep) == [c[3]];
  }

  lemma CatalogueIds()
    ensures forall i :: 0 <= i < |Catalogue| ==> Catalogue[i].id == i + 1
    ensures forall i, j :: 0 <= i < |Catalogue| && 0 <= j < |Catalogue| && Catalogue[i].id == Catalogue[j].id ==> i == j
  {
  }

  lemma CatalogueCategories()
    ensures forall i :: 0 <= i < |Catalogue| ==> Catalogue[i].category in CategoryIds[1..]
  {
  }

  /** A two-digit price reads as its amount. */
  lemma TwoDigitPrice(a: char, b: char)
    requires IsDigit(a) && IsDigit(b)
    ensures ParsePrice(['$', a, b]) == Some((a as int - '0' as int) * 10 + (b as int - '0' as int))
  {
    assert RemoveFirst(['$', a, b], '$') == [a, b];
    assert [a, b][..1] == [a] && [a][..0] == [];
    assert DigitsValue([a]) == a as int - '0' as int;
    assert DigitsValue([a, b]) == DigitsValue([a]) * 10 + (b as int - '0' as int);
  }

  /** A three-digit price reads as its amount. */
  lemma ThreeDigitPrice(a: char, b: char, c: char)
    requires IsDigit(a) && IsDigit(b) && IsDigit(c)
    ensures ParsePrice(['$', a, b, c])
         == Some((a as int - '0' as int) * 100 + (b as int - '0' as int) * 10 + (c as int - '0' as int))
  {
    assert RemoveFirst(['$', a, b, c], '$') == [a, b, c];
    assert [a, b, c][..2] == [a, b] && [a, b][..1] == [a] && [a][..0] == [];
    assert DigitsValue([a]) == a as int - '0' as int;
    assert DigitsValue([a, b]) == DigitsValue([a]) * 10 + (b as int - '0' as int);
    assert DigitsValue([a, b, c]) == DigitsValue([a, b]) * 10 + (c as int - '0' as int);
  }

  /** The catalogue's prices read as 50, 75, 100 and 150 dollars. */
  lemma CataloguePrices()
    ensures ParsePrice(Catalogue[0].price) == Some(50) && ParsePrice(Catalogue[1].price) == Some(75)
    ensures ParsePrice(Catalogue[2].price) == Some(100) && ParsePrice(Catalogue[3].price) == Some(150)
  {
    TwoDigitPrice('5', '0');
    TwoDigitPrice('7', '5');
    ThreeDigitPrice('1', '0', '0');
    ThreeDigitPrice('1', '5', '0');
  }

  // ---------------------------------------------------------------------------
  // The cart button and dialog

  /** `items.reduce((acc, item) => acc + item.quantity, 0)`. */
  function UnitCount(items: seq<CartItem>): (n: int)
    ensures |items| == 0 ==> n == 0
    ensures (forall i :: 0 <= i < |items| ==> items[i].quantity >= 0) ==> n >= 0
  {
    if |items| == 0 then 0 else UnitCount(items[..|items| - 1]) + items[|items| - 1].quantity
  }

  /** With every quantity at least one, there are at least as many units as lines,
      and as many exactly when every quantity is one. */
  lemma {:induction false} UnitsAtLeastLines(items: seq<CartItem>)
    requires forall i :: 0 <= i < |items| ==> items[i].quantity >= 1
    ensures UnitCount(items) >= |items|
    ensures UnitCount(items) == |items| <==> forall i :: 0 <= i < |items| ==> items[i].quantity == 1
  {
    if |items| > 0 {
      var init := items[..|items| - 1];
      assert forall i :: 0 <= i < |init| ==> init[i] == items[i];
      UnitsAtLeastLines(init);
    }
  }

  /** The badge on the cart button: the number of units, shown only for a non-empty cart. */
  function CartBadge(items: seq<CartItem>): (badge: Option<int>)
    ensures badge.Some? <==> |items| > 0
    ensures badge.Some? ==> badge.value == UnitCount(items)
  {
    if |items| > 0 then Some(UnitCount(items)) else None
  }

  /** The dialog's header, `Cart (${items.length})`: the number it shows reads back as
      the number of lines, not of units. */
  function CartHeader(items: seq<CartItem>): (text: string)
    ensures |text| > 7 && text[..6] == "Cart (" && text[|text| - 1] == ')'
    ensures IsDigits(text[6..|text| - 1]) && DigitsValue(text[6..|text| - 1]) == |items|
  {
    var digits := NatToString(|items|);
    DigitsValueOfNatToString(|items|);
    assert ("Cart (" + digits + ")")[6..|digits| + 6] == digits;
    "Cart (" + digits + ")"
  }

  /** The total and the checkout button appear only below a non-empty cart. */
  predicate CartFooterShown(items: seq<CartItem>) {
    |items| > 0
  }

  class StorePage {
    var activeCategory: string
    var isCartOpen: bool
    var effects: seq<Effect>

    /** The active category is one of the bar's buttons. */
    ghost predicate Valid()
      reads this
    {
      activeCategory in CategoryIds
    }

    constructor()
      ensures Valid() && activeCategory == "all" && !isCartOpen && effects == []
    {
      activeCategory := "all";
      isCartOpen := false;
      effects := [];
    }

    /** The products the grid shows; since the active category is always one of the
        bar's buttons, the grid is never empty. */
    function Shown(): (r: seq<Product>)
      requires Valid()
      reads this
      ensures |r| > 0
      ensures activeCategory == "all" ==> r == Catalogue
      ensures activeCategory != "all" ==> forall p :: p in r <==> p in Catalogue && p.category == activeCategory
      ensures forall p :: p in r ==> p in Catalogue
    {
      EveryCategoryShowsProducts(activeCategory);
      FilteredProducts(Catalogue, activeCategory)
    }

    /** A category button. */
    method SelectCategory(id: string)
      requires Valid() && id in CategoryIds
      modifies this
      ensures Valid() && activeCategory == id
      ensures isCartOpen == old(isCartOpen) && effects == old(effects)
    {
      activeCategory := id;
    }

    /** "Add to Cart" on a card of the grid. */
    method AddToCart(product: Product)
      requires Valid() && product in Shown()
      modifies this
      ensures Valid() && effects == old(effects) + [Cart(CartAdd(product))]
      ensures activeCategory == old(activeCategory) && isCartOpen == old(isCartOpen)
    {
      effects := effects + [Cart(CartAdd(product))];
    }

    /** The cart button. */
    method OpenCart()
      requires Valid()
      modifies this
      ensures Valid() && isCartOpen
      ensures activeCategory == old(activeCategory) && effects == old(effects)
    {
      isCartOpen := true;
    }

    /** The backdrop and the close button of the dialog. */
    method CloseCart()
      requires Valid() && isCartOpen
      modifies this
      ensures Valid() && !isCartOpen
      ensures activeCategory == old(activeCategory) && effects == old(effects)
    {
      isCartOpen := false;
    }

    /** The minus button of a row: one unit fewer of that product. */
    method DecreaseQuantity(items: seq<CartItem>, item: CartItem)
      requires Valid() && isCartOpen && item in items
      modifies this
      ensures Valid() && effects == old(effects) + [Cart(CartUpdateQuantity(item.id, item.quantity - 1))]
      ensures activeCategory == old(activeCategory) && isCartOpen == old(isCartOpen)
    {
      effects := effects + [Cart(CartUpdateQuantity(item.id, item.quantity - 1))];
    }

    /** The plus button of a row: one unit more of that product. */
    method IncreaseQuantity(items: seq<CartItem>, item: CartItem)
      requires Valid() && isCartOpen && item in items
      modifies this
      ensures Valid() && effects == old(effects) + [Cart(CartUpdateQuantity(item.id, item.quantity + 1))]
      ensures activeCategory == old(activeCategory) && isCartOpen == old(isCartOpen)
    {
      effects := effects + [Cart(CartUpdateQuantity(item.id, item.quantity + 1))];
    }

    /** The remove button of a row. */
    method RemoveItem(items: seq<CartItem>, item: CartItem)
      requires Valid() && isCartOpen && item in items
      modifies this
      ensures Valid() && effects == old(effects) + [Cart(CartRemove(item.id))]
      ensures activeCategory == old(activeCategory) && isCartOpen == old(isCartOpen)
    {
      effects := effects + [Cart(CartRemove(item.id))];
    }

    /** "Proceed to Checkout", in the footer of a non-empty cart. */
    method ProceedToCheckout(items: seq<CartItem>)
      requires Valid() && isCartOpen && CartFooterShown(items)
      modifies this
      ensures Valid() && !isCartOpen && effects == old(effects) + [Navigate("/store/checkout")]
      ensures activeCategory == old(activeCategory)
    {
      isCartOpen := false;
      effects := effects + [Navigate("/store/checkout")];
    }
  }
}
