/** The state of the checkout screen (src/pages/POS.tsx): the React state cells
    `cart`, `selectedClient`, `searchTerm`, `remiseGlobale`, `tva` and
    `typePaiement` become fields that each handler replaces, and the handlers
    are backed by the pure functions of module Cart. */
module PosScreen {
  import opened Types
  import Cart
  import Strings
  import Sequences

  /** The error message shown for an empty cart at checkout. */
  const EmptyCartMessage := "Le panier est vide"

  /** The product grid's search test: the lower-cased name contains the
      lower-cased term, or the bar code contains the term as typed. */
  predicate SearchMatches(p: Product, searchTerm: string)
  {
    Strings.Includes(Strings.ToLower(p.name), Strings.ToLower(searchTerm)) ||
    Strings.Includes(p.codeBar, searchTerm)
  }

  function Matcher(searchTerm: string): Product -> bool
  {
    (p: Product) => SearchMatches(p, searchTerm)
  }

  /** `products?.filter(...) || []`: the grid shows the matching products in
      catalog order, and nothing while the catalog is still `null`. */
  function FilteredProducts(products: Option<seq<Product>>, searchTerm: string): (r: seq<Product>)
    ensures products.None? ==> r == []
    ensures products.Some? ==>
      Sequences.Subseq(r, products.value) &&
      forall p :: multiset(r)[p] == if SearchMatches(p, searchTerm) then multiset(products.value)[p] else 0
  {
    Sequences.FilterPresent(products, Matcher(searchTerm))
  }

  /** An empty search term shows the whole catalog. */
  lemma EmptySearchShowsAll(products: seq<Product>)
    ensures FilteredProducts(Some(products), "") == products
  {
    forall i | 0 <= i < |products|
      ensures Matcher("")(products[i])
    {
      Strings.IncludesEmpty(products[i].codeBar);
    }
    Sequences.FilterPresentKeepsAll(products, Matcher(""));
  }

  class PointOfSale {
    var cart: seq<CartItem>
    var selectedClient: Option<Client>
    var searchTerm: string
    var remiseGlobale: real
    var tva: real
    var typePaiement: PaymentType

    /** The handlers keep one line per product, each holding at least one unit. */
    ghost predicate Valid()
      reads this
    {
      Cart.WellFormed(cart)
    }

    /** The initial values of the state cells. */
    constructor ()
      ensures Valid()
      ensures cart == [] && selectedClient == None && searchTerm == ""
      ensures remiseGlobale == 0.0 && tva == 20.0 && typePaiement == Cash
    {
      cart := [];
      selectedClient := None;
      searchTerm := "";
      remiseGlobale := 0.0;
      tva := 20.0;
      typePaiement := Cash;
    }

    /** The amount shown as "Sous-total". */
    function CalculateSubtotal(): (r: real)
      reads this
      ensures r == Cart.SubtotalFromFront(cart)
      ensures cart == [] ==> r == 0.0
    {
      Cart.SubtotalFolds(cart);
      Cart.Subtotal(cart)
    }

    /** The amount shown as "Total". */
    function CalculateTotal(): (r: real)
      reads this
      ensures r == CalculateSubtotal() * (1.0 - remiseGlobale / 100.0) * (1.0 + tva / 100.0)
    {
      Cart.Total(cart, remiseGlobale, tva)
    }

    method AddToCart(p: Product)
      requires Valid()
      modifies this
      ensures Valid()
      ensures cart == Cart.AddToCart(old(cart), p)
      ensures selectedClient == old(selectedClient) && searchTerm == old(searchTerm)
      ensures remiseGlobale == old(remiseGlobale) && tva == old(tva) && typePaiement == old(typePaiement)
    {
      Cart.AddToCartWellFormed(cart, p);
      cart := Cart.AddToCart(cart, p);
    }

    method RemoveFromCart(productId: int)
      requires Valid()
      modifies this
      ensures Valid()
      ensures cart == Cart.RemoveFromCart(old(cart), productId)
      ensures selectedClient == old(selectedClient) && searchTerm == old(searchTerm)
      ensures remiseGlobale == old(remiseGlobale) && tva == old(tva) && typePaiement == old(typePaiement)
    {
      Cart.RemoveFromCartWellFormed(cart, productId);
      cart := Cart.RemoveFromCart(cart, productId);
    }

    method UpdateQuantity(productId: int, quantity: int)
      requires Valid()
      modifies this
      ensures Valid()
      ensures cart == Cart.UpdateQuantity(old(cart), productId, quantity)
      ensures selectedClient == old(selectedClient) && searchTerm == old(searchTerm)
      ensures remiseGlobale == old(remiseGlobale) && tva == old(tva) && typePaiement == old(typePaiement)
    {
      Cart.UpdateQuantityWellFormed(cart, productId, quantity);
      cart := Cart.UpdateQuantity(cart, productId, quantity);
    }

    method UpdateItemRemise(productId: int, remise: real)
      requires Valid()
      modifies this
      ensures Valid()
      ensures cart == Cart.UpdateItemRemise(old(cart), productId, remise)
      ensures selectedClient == old(selectedClient) && searchTerm == old(searchTerm)
      ensures remiseGlobale == old(remiseGlobale) && tva == old(tva) && typePaiement == old(typePaiement)
    {
      Cart.UpdateItemRemiseWellFormed(cart, productId, remise);
      cart := Cart.UpdateItemRemise(cart, productId, remise);
    }

    /** The client drop-down stores the chosen client, or `null` for an anonymous sale. */
    method SelectClient(client: Option<Client>)
      modifies this`selectedClient
      ensures selectedClient == client
    {
      selectedClient := client;
    }

    method SetSearchTerm(term: string)
      modifies this`searchTerm
      ensures searchTerm == term
    {
      searchTerm := term;
    }

    /** The percentage inputs store the already-parsed value. */
    method SetRemiseGlobale(value: real)
      modifies this`remiseGlobale
      ensures remiseGlobale == value
    {
      remiseGlobale := value;
    }

    method SetTva(value: real)
      modifies this`tva
      ensures tva == value
    {
      tva := value;
    }

    method SetTypePaiement(kind: PaymentType)
      modifies this`typePaiement
      ensures typePaiement == kind
    {
      typePaiement := kind;
    }

    /** `handleCheckout`, with the clock reading passed in as `dateVente`. An
        empty cart is refused and nothing changes. Otherwise the sale snapshot
        records the cart, the total and the rates as they were, and the cart,
        the client and the global discount are then reset; TVA, the payment
        kind and the search term stay. */
    method HandleCheckout(dateVente: string) returns (outcome: Result<SaleDraft, string>)
      requires Valid()
      modifies this
      ensures Valid()
      ensures old(cart) == [] ==>
        outcome == Err(EmptyCartMessage) &&
        cart == old(cart) && selectedClient == old(selectedClient) && remiseGlobale == old(remiseGlobale)
      ensures old(cart) != [] ==>
        outcome == Ok(SaleDraft(
          if old(selectedClient).Some? then Some(old(selectedClient).value.id) else None,
          old(cart),
          Cart.Total(old(cart), old(remiseGlobale), old(tva)),
          old(tva),
          old(remiseGlobale),
          old(typePaiement),
          dateVente)) &&
        cart == [] && selectedClient == None && remiseGlobale == 0.0
      ensures tva == old(tva) && typePaiement == old(typePaiement) && searchTerm == old(searchTerm)
    {
      if |cart| == 0 {
        outcome := Err(EmptyCartMessage);
        return;
      }
      var sale := SaleDraft(
        if selectedClient.Some? then Some(selectedClient.value.id) else None,
        cart,
        CalculateTotal(),
        tva,
        remiseGlobale,
        typePaiement,
        dateVente);
      outcome := Ok(sale);
      cart := [];
      selectedClient := None;
      remiseGlobale := 0.0;
    }
  }

  /** A sale from a non-empty cart goes through, and a second checkout right
      after it is refused because the cart is now empty. */
  method CheckoutTwice(pos: PointOfSale, dateVente: string) returns (first: Result<SaleDraft, string>, second: Result<SaleDraft, string>)
    requires pos.Valid() && pos.cart != []
    modifies pos
    ensures first.Ok? && first.value.items == old(pos.cart)
    ensures second == Err(EmptyCartMessage)
  {
    first := pos.HandleCheckout(dateVente);
    second := pos.HandleCheckout(dateVente);
  }
}
