/**
 * The product catalogue page: it restores the session flags on mount, keeps
 * the selected quantity, creates the customer's order on demand, adds
 * products to the local cart and to the remote order, and logs out.
 */
module Products {
  import opened Session

  datatype Product = Product(id: int, name: string, description: string, price: int, stockQuantity: int)

  /** A local cart entry: the product record extended with the selected quantity. */
  datatype CartEntry = CartEntry(product: Product, quantity: int)

  /** The quantity stored for an edit of the quantity input: never below one. */
  function ClampQuantity(input: int): (q: int)
    ensures q >= 1 && q >= input
    ensures q == 1 || q == input
  {
    if input < 1 then 1 else input
  }

  /**
   * The requests an authenticated add-to-cart issues, given the order id the
   * page held when the call began, the stored token and customer id: an order
   * is created only when no order id was held, an item is attached only when
   * one was, and never both in the same call.
   */
  function AddToCartCalls(held: Option<string>, token: Option<string>, idUser: Option<string>,
                          quantity: int, productId: int): (r: seq<Request>)
    ensures |r| <= 1
    ensures forall q :: q in r ==> q.PostCreateOrder? || q.PostOrderItem?
    ensures (exists q :: q in r && q.PostCreateOrder?) <==> !Present(held) && Present(token)
    ensures (exists q :: q in r && q.PostOrderItem?) <==> Present(held) && Present(token)
    ensures forall q :: q in r && q.PostCreateOrder? ==> q == PostCreateOrder(idUser)
    ensures forall q :: q in r && q.PostOrderItem? ==>
      Present(held) && q == PostOrderItem(quantity, held.value, productId)
  {
    if !Present(token) then []
    else if Present(held) then
      var attach := PostOrderItem(quantity, held.value, productId);
      assert attach in [attach];
      [attach]
    else
      var create := PostCreateOrder(idUser);
      assert create in [create];
      [create]
  }

  class ProductsPage {
    const storage: LocalStorage
    var products: seq<Product>
    var cart: seq<CartEntry>
    var orderId: Option<string>
    var quantity: int
    var isAuthenticated: bool
    var navigatedTo: Option<string>
    var lastAlert: Option<Alert>
    var requests: seq<Request>

    /**
     * The page invariant: the selected quantity is at least one. The
     * constructor establishes it, SetQuantity restores it through the clamp
     * and every other handler keeps it.
     */
    ghost predicate Valid()
      reads this
    {
      quantity >= 1
    }

    /** The page as first rendered: empty cart, no order, quantity one, not authenticated. */
    constructor (storage: LocalStorage)
      ensures this.storage == storage && Valid()
      ensures products == [] && cart == [] && orderId == None && quantity == 1
      ensures !isAuthenticated && navigatedTo == None && lastAlert == None && requests == []
    {
      this.storage := storage;
      products := [];
      cart := [];
      orderId := None;
      quantity := 1;
      isAuthenticated := false;
      navigatedTo := None;
      lastAlert := None;
      requests := [];
    }

    /**
     * The mount effect: loads the catalogue, sets the authentication flag from
     * the stored token and adopts a stored order id.
     */
    method Mount(productsResponse: Outcome<seq<Product>>)
      requires Valid()
      modifies this`products, this`isAuthenticated, this`orderId, this`requests
      ensures Valid()
      ensures requests == old(requests) + [GetProducts]
      ensures products == if productsResponse.Success? then productsResponse.value else old(products)
      ensures isAuthenticated <==> Present(storage.GetItem(AuthToken))
      ensures Present(storage.GetItem(OrderId)) ==> orderId == storage.GetItem(OrderId)
      ensures !Present(storage.GetItem(OrderId)) ==> orderId == old(orderId)
    {
      requests := requests + [GetProducts];
      if productsResponse.Success? {
        products := productsResponse.value;
      }
      var token := storage.GetItem(AuthToken);
      isAuthenticated := Present(token);
      var storedOrderId := storage.GetItem(OrderId);
      if Present(storedOrderId) {
        orderId := storedOrderId;
      }
    }

    /** An edit of the quantity input stores the clamped value. */
    method SetQuantity(input: int)
      modifies this`quantity
      ensures quantity == ClampQuantity(input) && Valid()
    {
      quantity := ClampQuantity(input);
    }

    /**
     * `createOrder`: without a stored token it only asks the customer to log
     * in; otherwise it requests a new order and, on success, holds and
     * persists the returned id. It answers the new id, or None.
     */
    method CreateOrder(idCostumer: Option<string>, response: Outcome<string>) returns (newOrderId: Option<string>)
      requires Valid()
      modifies this`orderId, this`navigatedTo, this`lastAlert, this`requests, storage
      ensures Valid()
      ensures !Present(old(storage.GetItem(AuthToken))) ==>
        && newOrderId == None && orderId == old(orderId)
        && storage.items == old(storage.items) && requests == old(requests)
        && navigatedTo == Some(LoginRoute) && lastAlert == Some(LoginRequired)
      ensures Present(old(storage.GetItem(AuthToken))) ==>
        && requests == old(requests) + [PostCreateOrder(idCostumer)]
        && navigatedTo == old(navigatedTo)
      ensures Present(old(storage.GetItem(AuthToken))) && response.Success? ==>
        && newOrderId == Some(response.value) && orderId == Some(response.value)
        && storage.items == OrderRemembered(old(storage.items), response.value)
        && lastAlert == old(lastAlert)
      ensures Present(old(storage.GetItem(AuthToken))) && response.Failure? ==>
        && newOrderId == None && orderId == old(orderId)
        && storage.items == old(storage.items) && lastAlert == Some(OrderCreationFailed)
    {
      var accessToken := storage.GetItem(AuthToken);
      if !Present(accessToken) {
        lastAlert := Some(LoginRequired);
        navigatedTo := Some(LoginRoute);
        return None;
      }
      requests := requests + [PostCreateOrder(idCostumer)];
      match response
      case Success(id) =>
        orderId := Some(id);
        storage.SetItem(OrderId, id);
        newOrderId := Some(id);
      case Failure =>
        lastAlert := Some(OrderCreationFailed);
        newOrderId := None;
    }

    /**
     * `addToCart`: when not authenticated only asks the customer to log in.
     * Otherwise it creates an order if none is held, appends the product with
     * the selected quantity to the local cart whatever happens next, and
     * attaches the item remotely only if an order id was held when the call
     * began; the first add of a session thus creates the order but attaches
     * nothing.
     */
    method AddToCart(product: Product, createResponse: Outcome<string>, attachResponse: Outcome<()>)
      requires Valid()
      modifies this`cart, this`orderId, this`navigatedTo, this`lastAlert, this`requests, storage
      ensures Valid()
      ensures !old(isAuthenticated) ==>
        && cart == old(cart) && orderId == old(orderId)
        && storage.items == old(storage.items) && requests == old(requests)
        && navigatedTo == Some(LoginRoute) && lastAlert == Some(LoginRequired)
      ensures old(isAuthenticated) ==>
        && cart == old(cart) + [CartEntry(product, quantity)]
        && cart[|cart| - 1].quantity >= 1
        && requests == old(requests) + AddToCartCalls(old(orderId), old(storage.GetItem(AuthToken)),
                                                      old(storage.GetItem(IdUser)), quantity, product.id)
      ensures old(isAuthenticated) && Present(old(orderId)) ==>
        orderId == old(orderId) && storage.items == old(storage.items)
      ensures old(isAuthenticated) && !Present(old(orderId)) ==>
        if Present(old(storage.GetItem(AuthToken))) && createResponse.Success?
        then orderId == Some(createResponse.value)
          && storage.items == OrderRemembered(old(storage.items), createResponse.value)
        else orderId == None && storage.items == old(storage.items)
      ensures old(isAuthenticated) && !Present(old(storage.GetItem(AuthToken))) ==>
        navigatedTo == Some(LoginRoute) && lastAlert == Some(LoginRequired)
      ensures old(isAuthenticated) && Present(old(storage.GetItem(AuthToken))) ==>
        && navigatedTo == old(navigatedTo)
        && lastAlert == (if !Present(old(orderId)) then Some(OrderNotFound)
                         else if attachResponse.Success? then Some(ItemAdded(product.name, quantity))
                         else Some(ItemAttachFailed))
    {
      if !isAuthenticated {
        lastAlert := Some(LoginRequired);
        navigatedTo := Some(LoginRoute);
        return;
      }
      // The handler keeps reading the order id it saw when it began.
      var heldOrderId := orderId;
      if !Present(heldOrderId) {
        var userId := storage.GetItem(IdUser);
        var newOrderId := CreateOrder(userId, createResponse);
        orderId := newOrderId;
      }
      cart := cart + [CartEntry(product, quantity)];
      var accessToken := storage.GetItem(AuthToken);
      if !Present(accessToken) {
        lastAlert := Some(LoginRequired);
        navigatedTo := Some(LoginRoute);
        return;
      }
      if Present(heldOrderId) {
        requests := requests + [PostOrderItem(quantity, heldOrderId.value, product.id)];
        match attachResponse
        case Success(_) =>
          lastAlert := Some(ItemAdded(product.name, quantity));
        case Failure =>
          lastAlert := Some(ItemAttachFailed);
      } else {
        lastAlert := Some(OrderNotFound);
      }
    }

    /**
     * `handleLogout`: removes the token, the customer id and the order id
     * from the store, clears the flags and goes to the login page.
     */
    method HandleLogout()
      requires Valid()
      modifies this`isAuthenticated, this`orderId, this`navigatedTo, storage
      ensures Valid()
      ensures storage.items == SessionCleared(old(storage.items))
      ensures !isAuthenticated && orderId == None && navigatedTo == Some(LoginRoute)
    {
      storage.RemoveItem(AuthToken);
      storage.RemoveItem(IdUser);
      storage.RemoveItem(OrderId);
      isAuthenticated := false;
      orderId := None;
      navigatedTo := Some(LoginRoute);
    }
  }

  /**
   * A customer signed in with no order yet: the first add creates order
   * "42" and attaches nothing (the page reports the order as not found),
   * the second add attaches to order "42"; both adds land in the local cart.
   */
  method FirstAddScenario() {
    var storage := new LocalStorage(map[AuthToken := "Bearer t", IdUser := "7"]);
    var page := new ProductsPage(storage);
    page.Mount(Failure);
    assert page.isAuthenticated && page.orderId == None;
    var coffee := Product(1, "Coffee", "Arabica beans", 2500, 10);
    page.AddToCart(coffee, Success("42"), Success(()));
    assert page.requests == [GetProducts, PostCreateOrder(Some("7"))];
    assert page.orderId == Some("42") && page.lastAlert == Some(OrderNotFound);
    assert storage.GetItem(OrderId) == Some("42");
    page.AddToCart(coffee, Failure, Success(()));
    assert page.requests == [GetProducts, PostCreateOrder(Some("7")), PostOrderItem(1, "42", 1)];
    assert page.cart == [CartEntry(coffee, 1), CartEntry(coffee, 1)];
  }
}
