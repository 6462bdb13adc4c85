/** The storefront component's state (App.tsx): the loaded catalog, the
    search box and browse filter with the list they select, the cart, and the
    "students helped" counter, with the updates the page makes to them. */
module Storefront {
  import opened Types
  import opened Sequences
  import opened Cart
  import opened Pricing
  import opened Catalog

  /** The counter's value when nothing has been saved before. */
  const InitialStudentsHelped := 842

  class App {
    var products: seq<Product>
    var bundleProduct: Option<Product>
    var filteredProducts: seq<Product>
    var cart: seq<CartItem>
    var isCartOpen: bool
    var searchQuery: string
    var activeFilter: string
    var studentsHelped: int

    /** One cart line per product, each with a positive quantity, and the
        shown list is the one the filtering effect computes. */
    ghost predicate Valid()
      reads this
    {
      WellFormed(cart) && filteredProducts == FilterProducts(products, activeFilter, searchQuery)
    }

    constructor ()
      ensures Valid()
      ensures products == [] && bundleProduct == None && filteredProducts == []
      ensures cart == [] && !isCartOpen
      ensures searchQuery == "" && activeFilter == AllFilter
      ensures studentsHelped == InitialStudentsHelped
    {
      products, bundleProduct, filteredProducts := [], None, [];
      cart, isCartOpen := [], false;
      searchQuery, activeFilter := "", AllFilter;
      studentsHelped := InitialStudentsHelped;
    }

    function BundleId(): Option<string>
      reads this
    {
      match bundleProduct
      case None => None
      case Some(bundle) => Some(bundle.id)
    }

    /** `cartTotal` and `savingsMessage`, recomputed from the current cart:
        an empty cart costs nothing and shows no message. */
    function Totals(): (r: CartTotals)
      reads this
      ensures cart == [] ==> r == CartTotals(0, "")
    {
      CalculateCartTotals(cart, BundleId())
    }

    /** The header badge: the cart's summed quantity. */
    function CartCount(): int
      reads this
    {
      QuantitySum(cart)
    }

    /** The catalog has loaded: store the products and the bundle, and let the
        filtering effect recompute the shown list. */
    method CatalogLoaded(loadedProducts: seq<Product>, loadedBundle: Option<Product>)
      requires Valid()
      modifies this
      ensures Valid()
      ensures products == loadedProducts && bundleProduct == loadedBundle
      ensures filteredProducts == FilterProducts(loadedProducts, activeFilter, searchQuery)
      ensures cart == old(cart) && isCartOpen == old(isCartOpen)
      ensures searchQuery == old(searchQuery) && activeFilter == old(activeFilter)
      ensures studentsHelped == old(studentsHelped)
    {
      var shown := FilterProducts(loadedProducts, activeFilter, searchQuery);
      products, bundleProduct, filteredProducts := loadedProducts, loadedBundle, shown;
    }

    /** Typing in the search box, followed by the filtering effect. */
    method SetSearchQuery(query: string)
      requires Valid()
      modifies this
      ensures Valid()
      ensures searchQuery == query
      ensures filteredProducts == FilterProducts(products, activeFilter, query)
      ensures products == old(products) && bundleProduct == old(bundleProduct)
      ensures cart == old(cart) && isCartOpen == old(isCartOpen)
      ensures activeFilter == old(activeFilter) && studentsHelped == old(studentsHelped)
    {
      var shown := FilterProducts(products, activeFilter, query);
      searchQuery, filteredProducts := query, shown;
    }

    /** Choosing a browse filter, followed by the filtering effect. */
    method SetActiveFilter(filter: string)
      requires Valid()
      modifies this
      ensures Valid()
      ensures activeFilter == filter
      ensures filteredProducts == FilterProducts(products, filter, searchQuery)
      ensures products == old(products) && bundleProduct == old(bundleProduct)
      ensures cart == old(cart) && isCartOpen == old(isCartOpen)
      ensures searchQuery == old(searchQuery) && studentsHelped == old(studentsHelped)
    {
      var shown := FilterProducts(products, filter, searchQuery);
      activeFilter, filteredProducts := filter, shown;
    }

    /** addToCart: one more unit of the product (a new line with quantity one
        if it was not in the cart), and the cart drawer opens. */
    method AddToCart(product: Product)
      requires Valid()
      modifies this
      ensures Valid()
      ensures old(HasId(cart, product.id)) ==>
        exists k :: 0 <= k < |old(cart)| && old(cart)[k].Id() == product.id
          && (forall j :: 0 <= j < |old(cart)| && j != k ==> old(cart)[j].Id() != product.id)
          && cart == old(cart)[k := old(cart)[k].(quantity := old(cart)[k].quantity + 1)]
      ensures !old(HasId(cart, product.id)) ==> cart == old(cart) + [CartItem(product, 1)]
      ensures CartCount() == old(CartCount()) + 1
      ensures isCartOpen
      ensures products == old(products) && bundleProduct == old(bundleProduct)
      ensures filteredProducts == old(filteredProducts)
      ensures searchQuery == old(searchQuery) && activeFilter == old(activeFilter)
      ensures studentsHelped == old(studentsHelped)
    {
      AddToCartLines(cart, product);
      AddToCartCount(cart, product);
      AddToCartWellFormed(cart, product);
      var updated := AddedToCart(cart, product);
      cart, isCartOpen := updated, true;
    }

    /** removeFromCart: the product's line goes, the other lines stay in
        order, and the count drops by that line's quantity. */
    method RemoveFromCart(id: string)
      requires Valid()
      modifies this
      ensures Valid()
      ensures !HasId(cart, id)
      ensures IsSubsequence(cart, old(cart))
      ensures forall x :: x in cart <==> x in old(cart) && x.Id() != id
      ensures CartCount() ==
              old(CartCount()) - (match old(Find(cart, id)) case Some(it) => it.quantity case None => 0)
      ensures products == old(products) && bundleProduct == old(bundleProduct)
      ensures filteredProducts == old(filteredProducts) && isCartOpen == old(isCartOpen)
      ensures searchQuery == old(searchQuery) && activeFilter == old(activeFilter)
      ensures studentsHelped == old(studentsHelped)
    {
      RemoveFromCartLines(cart, id);
      RemoveFromCartCount(cart, id);
      RemoveFromCartWellFormed(cart, id);
      var updated := RemovedFromCart(cart, id);
      cart := updated;
    }

    /** handleCheckoutSuccess: the counter grows by the number of units sold
        (the header count) and the cart empties. */
    method HandleCheckoutSuccess()
      requires Valid()
      modifies this
      ensures Valid()
      ensures studentsHelped == old(studentsHelped) + old(CartCount())
      ensures studentsHelped >= old(studentsHelped) + |old(cart)|
      ensures cart == [] && CartCount() == 0 && Totals() == CartTotals(0, "")
      ensures products == old(products) && bundleProduct == old(bundleProduct)
      ensures filteredProducts == old(filteredProducts) && isCartOpen == old(isCartOpen)
      ensures searchQuery == old(searchQuery) && activeFilter == old(activeFilter)
    {
      var itemsSold := QuantitySum(cart);
      var helped := studentsHelped + itemsSold;
      studentsHelped, cart := helped, [];
    }
  }
}
