/**
 * The shop's product list (`src/pages/ProductListing.tsx`): a fixed
 * catalogue filtered by the category in the route, a title per category,
 * and the add-to-cart and buy-now buttons, which park the product and send
 * a guest to the login page. Prices are in paisa. Whether a user is signed
 * in is an input.
 */
module ProductListing {
  import opened Wrappers
  import Checkout

  datatype Product = Product(
    id: string, name: string, price: nat, discountPrice: Option<nat>, image: string, category: string,
    sizes: Option<seq<string>>, colors: Option<seq<string>>)

  /** The catalogue: its two maternity products first, then the others. */
  const MockProducts: seq<Product> := MaternityProducts + OtherProducts

  const MaternityProducts: seq<Product> := [
    Product("1", "Maternity Dress", 5999, Some(4999), "/product-1.jpg", "maternity",
            Some(["S", "M", "L", "XL"]), Some(["Black", "Navy", "Burgundy"])),
    Product("2", "Pregnancy Support Belt", 2999, None, "/product-2.jpg", "maternity",
            Some(["S", "M", "L"]), None)
  ]

  const OtherProducts: seq<Product> := [
    Product("3", "Nursing Bra", 3499, Some(2999), "/product-3.jpg", "nursing",
            Some(["S", "M", "L", "XL"]), Some(["Black", "Beige", "White"])),
    Product("4", "Baby Onesie Set", 2499, None, "/product-4.jpg", "baby",
            Some(["0-3m", "3-6m", "6-12m"]), Some(["Blue", "Pink", "Yellow"])),
    Product("5", "Postpartum Recovery Kit", 4999, Some(3999), "/product-5.jpg", "wellness", None, None),
    Product("6", "New Mom Gift Box", 7999, None, "/product-6.jpg", "gifts", None, None)
  ]

  /** The products of one category, in catalogue order. */
  function OfCategory(products: seq<Product>, category: string): (r: seq<Product>)
    ensures |r| <= |products|
    ensures forall p :: p in r <==> p in products && p.category == category
    decreases |products|
  {
    if |products| == 0 then []
    else
      var rest := OfCategory(products[..|products| - 1], category);
      var last := products[|products| - 1];
      assert forall p :: p in products <==> p in products[..|products| - 1] || p == last;
      if last.category == category then rest + [last] else rest
  }

  /** Filtering keeps the catalogue order: it distributes over concatenation. */
  lemma {:induction false} OfCategoryAppend(a: seq<Product>, b: seq<Product>, category: string)
    ensures OfCategory(a + b, category) == OfCategory(a, category) + OfCategory(b, category)
    decreases |b|
  {
    if |b| > 0 {
      var b' := b[..|b| - 1];
      assert (a + b)[..|a + b| - 1] == a + b';
      OfCategoryAppend(a, b', category);
    } else {
      assert a + b == a;
    }
  }

  /** The list shown for the route's `categoryId`: its products when it is truthy, the whole catalogue otherwise. */
  function Listed(categoryId: Option<string>): (r: seq<Product>)
    ensures categoryId.None? || categoryId.value == "" ==> r == MockProducts
    ensures categoryId.Some? && categoryId.value != "" ==>
              forall p :: p in r <==> p in MockProducts && p.category == categoryId.value
  {
    if categoryId.Some? && categoryId.value != "" then OfCategory(MockProducts, categoryId.value) else MockProducts
  }

  /** A list whose products all belong to the category is kept whole. */
  lemma {:induction false} OfCategoryAll(products: seq<Product>, category: string)
    requires forall i :: 0 <= i < |products| ==> products[i].category == category
    ensures OfCategory(products, category) == products
    decreases |products|
  {
    if |products| > 0 {
      var init := products[..|products| - 1];
      OfCategoryAll(init, category);
      assert init + [products[|products| - 1]] == products;
    }
  }

  /** A list none of whose products belongs to the category is dropped entirely. */
  lemma OfCategoryNone(products: seq<Product>, category: string)
    requires forall i :: 0 <= i < |products| ==> products[i].category != category
    ensures OfCategory(products, category) == []
  {
  }

  /** A category whose products all come before the others' is listed as exactly that first block. */
  lemma LeadingBlockListed(block: seq<Product>, rest: seq<Product>, category: string)
    requires forall i :: 0 <= i < |block| ==> block[i].category == category
    requires forall i :: 0 <= i < |rest| ==> rest[i].category != category
    ensures OfCategory(block + rest, category) == block
  {
    OfCategoryAppend(block, rest, category);
    OfCategoryAll(block, category);
    OfCategoryNone(rest, category);
    assert block + [] == block;
  }

  /** The maternity category lists its two products, the dress then the belt, and nothing else. */
  lemma MaternityListing()
    ensures Listed(Some("maternity")) == MaternityProducts
  {
    LeadingBlockListed(MaternityProducts, OtherProducts, "maternity");
  }

  /** The titled categories. */
  const KnownCategories: set<string> := {"maternity", "nursing", "baby", "wellness", "gifts"}

  /** `getCategoryTitle`. */
  function CategoryTitle(categoryId: Option<string>): (r: string)
    ensures r == "All Products" <==> categoryId.None? || categoryId.value !in KnownCategories
  {
    match categoryId
    case Some("maternity") => "Maternity Wear"
    case Some("nursing") => "Nursing Essentials"
    case Some("baby") => "Baby Care"
    case Some("wellness") => "Maternal Wellness"
    case Some("gifts") => "Gift Sets"
    case _ => "All Products"
  }

  /** Distinct categories get distinct titles. */
  lemma CategoryTitlesDistinct(a: Option<string>, b: Option<string>)
    requires a.Some? && b.Some? && a.value in KnownCategories && b.value in KnownCategories && a != b
    ensures CategoryTitle(a) != CategoryTitle(b)
  {
  }

  /** The price put in the cart: the discount price when it is present and non-zero, else the price. */
  function CartPrice(p: Product): (r: nat)
    ensures p.discountPrice.Some? && p.discountPrice.value != 0 ==> r == p.discountPrice.value
    ensures p.discountPrice.None? || p.discountPrice.value == 0 ==> r == p.price
  {
    if p.discountPrice.Some? && p.discountPrice.value != 0 then p.discountPrice.value else p.price
  }

  /** The cart line for a product: one unit at the cart price. */
  function CartLine(p: Product): Checkout.CartItem {
    Checkout.CartItem(p.id, p.name, CartPrice(p), p.image, 1)
  }

  /** Every catalogue product is sold at no more than its list price. */
  lemma CatalogueDiscountsLower()
    ensures forall i :: 0 <= i < |MockProducts| ==> CartPrice(MockProducts[i]) <= MockProducts[i].price
  {
  }

  /** A navigation: the target, and the `state` passed with it. */
  datatype Navigation = Navigation(to: string, from: Option<string>, action: Option<string>)

  class ProductListingPage {
    var products: seq<Product>
    var loading: bool
    /** Lines handed to the cart context's `addToCart`, oldest first. */
    var cartAdds: seq<Checkout.CartItem>
    /** `localStorage['pendingCartItem']` and `localStorage['pendingBuyNow']`. */
    var pendingCartItem: Option<Product>
    var pendingBuyNow: Option<Product>
    var navigations: seq<Navigation>
    var alerts: seq<string>

    constructor (storedCartItem: Option<Product>, storedBuyNow: Option<Product>)
      ensures products == [] && loading && cartAdds == [] && navigations == [] && alerts == []
      ensures pendingCartItem == storedCartItem && pendingBuyNow == storedBuyNow
    {
      products := [];
      loading := true;
      cartAdds := [];
      pendingCartItem := storedCartItem;
      pendingBuyNow := storedBuyNow;
      navigations := [];
      alerts := [];
    }

    /** `fetchProducts` for the route's category. */
    method FetchProducts(categoryId: Option<string>)
      modifies this
      ensures products == Listed(categoryId) && !loading
      ensures cartAdds == old(cartAdds) && pendingCartItem == old(pendingCartItem) && pendingBuyNow == old(pendingBuyNow)
      ensures navigations == old(navigations) && alerts == old(alerts)
    {
      loading := true;
      if categoryId.Some? && categoryId.value != "" {
        products := OfCategory(MockProducts, categoryId.value);
      } else {
        products := MockProducts;
      }
      loading := false;
    }

    /**
     * `handleAddToCart`: a guest's product is parked under
     * `'pendingCartItem'` and the guest sent to the login page; a signed-in
     * user's cart gets one unit of it.
     */
    method HandleAddToCart(product: Product, signedIn: bool, location: string)
      modifies this
      ensures !signedIn ==>
                && cartAdds == old(cartAdds) && pendingCartItem == Some(product) && pendingBuyNow == old(pendingBuyNow)
                && navigations == old(navigations) + [Navigation("/login", Some(location), Some("addToCart"))]
                && alerts == old(alerts)
      ensures signedIn ==>
                && cartAdds == old(cartAdds) + [CartLine(product)]
                && pendingCartItem == old(pendingCartItem) && pendingBuyNow == old(pendingBuyNow)
                && navigations == old(navigations) && alerts == old(alerts) + ["Product added to cart!"]
      ensures products == old(products) && loading == old(loading)
    {
      if !signedIn {
        pendingCartItem := Some(product);
        navigations := navigations + [Navigation("/login", Some(location), Some("addToCart"))];
        return;
      }
      cartAdds := cartAdds + [CartLine(product)];
      alerts := alerts + ["Product added to cart!"];
    }

    /**
     * `handleBuyNow`: as add-to-cart, with `'pendingBuyNow'` and action
     * `'buyNow'` for a guest; a signed-in user goes to the checkout after the
     * line is in the cart.
     */
    method HandleBuyNow(product: Product, signedIn: bool, location: string)
      modifies this
      ensures !signedIn ==>
                && cartAdds == old(cartAdds) && pendingBuyNow == Some(product) && pendingCartItem == old(pendingCartItem)
                && navigations == old(navigations) + [Navigation("/login", Some(location), Some("buyNow"))]
      ensures signedIn ==>
                && cartAdds == old(cartAdds) + [CartLine(product)]
                && pendingCartItem == old(pendingCartItem) && pendingBuyNow == old(pendingBuyNow)
                && navigations == old(navigations) + [Navigation("/checkout", None, None)]
      ensures products == old(products) && loading == old(loading) && alerts == old(alerts)
    {
      if !signedIn {
        pendingBuyNow := Some(product);
        navigations := navigations + [Navigation("/login", Some(location), Some("buyNow"))];
        return;
      }
      cartAdds := cartAdds + [CartLine(product)];
      navigations := navigations + [Navigation("/checkout", None, None)];
    }
  }
}
