/**
 * The cart and checkout page: on mount it resolves the session, adopts or
 * creates the customer's order and loads its items; it then lets the
 * customer remove items, fill in the delivery address from a postal-code
 * (CEP) lookup, finalize the order and confirm the simulated PIX payment.
 */
module Cart {
  import opened Session

  datatype ProductInfo = ProductInfo(name: string, description: string)

  /** One line of the remote order, as the order service returns it. */
  datatype OrderItem = OrderItem(idOrderCostumer: int, productsEntity: ProductInfo, quantity: int, price: int)

  datatype Address = Address(street: string, neighborhood: string, city: string, state: string,
                             number: string, complement: string)

  /** What a successful postal-code lookup answers (`logradouro`, `bairro`, `localidade`, `uf`). */
  datatype CepAddress = CepAddress(street: string, neighborhood: string, city: string, state: string)

  const EmptyAddress := Address("", "", "", "", "", "")
  const CartLoadError := "Erro ao carregar os itens do carrinho."

  /** A lookup is made only for an input of exactly this many characters. */
  const CepLength := 8

  predicate IsCompleteCep(cep: string) {
    |cep| == CepLength
  }

  /**
   * The CEP gate looks at the length alone: inputs of equal length are
   * treated alike whatever their characters, so a hyphenated "0100-000"
   * passes while the written-out "01001-000" does not.
   */
  lemma CepGateLengthOnly(a: string, b: string)
    requires |a| == |b|
    ensures IsCompleteCep(a) <==> IsCompleteCep(b)
    ensures IsCompleteCep("01001000") && IsCompleteCep("0100-000") && !IsCompleteCep("01001-000")
  {
  }

  /**
   * The address after a successful lookup: the four looked-up fields are
   * overwritten and the customer's number and complement are kept.
   */
  function WithCep(a: Address, found: CepAddress): (r: Address)
    ensures r.street == found.street && r.neighborhood == found.neighborhood
    ensures r.city == found.city && r.state == found.state
    ensures r.number == a.number && r.complement == a.complement
  {
    a.(street := found.street, neighborhood := found.neighborhood, city := found.city, state := found.state)
  }

  /**
   * The delivery-address string sent when the order is finalized; where each
   * field sits in it is stated by FullAddressLayout.
   */
  function FullAddress(a: Address): (r: string)
    ensures |r| == |a.street| + |a.number| + |a.complement| + |a.neighborhood| + |a.city| + |a.state| + 12
    ensures r[..|a.street|] == a.street && r[|r| - |a.state|..] == a.state
  {
    a.street + ", " + a.number + " - " + a.complement + ", " + a.neighborhood + ", " + a.city + " - " + a.state
  }

  /**
   * Where each field of the address sits in the delivery string: the six
   * fields follow each other, joined by the fixed separators ", ", " - ",
   * ", ", ", " and " - ", so the string is exactly twelve characters longer
   * than the fields together.
   */
  lemma FullAddressLayout(a: Address)
    ensures var s, i1 := FullAddress(a), |a.street| + 2;
      var i2 := i1 + |a.number| + 3;
      var i3 := i2 + |a.complement| + 2;
      var i4 := i3 + |a.neighborhood| + 2;
      var i5 := i4 + |a.city| + 3;
      && |s| == i5 + |a.state|
      && s[..|a.street|] == a.street && s[|a.street|..i1] == ", "
      && s[i1..i1 + |a.number|] == a.number && s[i1 + |a.number|..i2] == " - "
      && s[i2..i2 + |a.complement|] == a.complement && s[i2 + |a.complement|..i3] == ", "
      && s[i3..i3 + |a.neighborhood|] == a.neighborhood && s[i3 + |a.neighborhood|..i4] == ", "
      && s[i4..i4 + |a.city|] == a.city && s[i4 + |a.city|..i5] == " - "
      && s[i5..] == a.state
  {
  }

  /** The worked example: an empty complement leaves " - ," in the string. */
  lemma FullAddressExample()
    ensures FullAddress(Address("Rua X", "Centro", "Springfield", "SP", "10", ""))
         == "Rua X, 10 - , Centro, Springfield - SP"
  {
  }

  /** The items left after deleting `itemId`: those whose id differs, in their order. */
  function Without(items: seq<OrderItem>, itemId: int): (r: seq<OrderItem>)
    ensures |r| <= |items|
    ensures forall x :: x in r <==> x in items && x.idOrderCostumer != itemId
  {
    if items == [] then []
    else if items[0].idOrderCostumer == itemId then Without(items[1..], itemId)
    else [items[0]] + Without(items[1..], itemId)
  }

  /** Deletion works item by item: it distributes over concatenation, so kept items keep their order. */
  lemma {:induction false} WithoutConcat(a: seq<OrderItem>, b: seq<OrderItem>, itemId: int)
    ensures Without(a + b, itemId) == Without(a, itemId) + Without(b, itemId)
  {
    if a == [] {
      assert a + b == b;
    } else {
      assert (a + b)[0] == a[0];
      assert (a + b)[1..] == a[1..] + b;
      WithoutConcat(a[1..], b, itemId);
    }
  }

  /** When no item carries `itemId`, deletion leaves the list as it was. */
  lemma {:induction false} WithoutUnmatched(items: seq<OrderItem>, itemId: int)
    requires forall k :: 0 <= k < |items| ==> items[k].idOrderCostumer != itemId
    ensures Without(items, itemId) == items
  {
    if items != [] {
      WithoutUnmatched(items[1..], itemId);
      assert [items[0]] + items[1..] == items;
    }
  }

  /** Deleting the same id twice removes nothing more. */
  lemma {:induction false} WithoutIdempotent(items: seq<OrderItem>, itemId: int)
    ensures Without(Without(items, itemId), itemId) == Without(items, itemId)
  {
    var r := Without(items, itemId);
    forall k | 0 <= k < |r| ensures r[k].idOrderCostumer != itemId {
      assert r[k] in r;
    }
    WithoutUnmatched(r, itemId);
  }

  /**
   * Adding an item with a fresh id and then deleting it by that id gives
   * back the list as it was before the add.
   */
  lemma {:induction false} WithoutAppendedRoundTrip(items: seq<OrderItem>, item: OrderItem)
    requires forall k :: 0 <= k < |items| ==> items[k].idOrderCostumer != item.idOrderCostumer
    ensures Without(items + [item], item.idOrderCostumer) == items
  {
    WithoutConcat(items, [item], item.idOrderCostumer);
    WithoutUnmatched(items, item.idOrderCostumer);
    assert Without([item], item.idOrderCostumer) == [];
  }

  /**
   * The requests the cart load issues, given the stored customer id, token
   * and order id it read at the start and the answer to a creation request.
   * Nothing is requested without an identity. An order is created, exactly
   * once and first, only when no order id was stored. The order is then
   * fetched unless its creation failed, and the fetch always names the order
   * id read at the start, even when that was none and an order was just
   * created.
   */
  function CartLoadCalls(customerId: Option<string>, token: Option<string>, stored: Option<string>,
                         createResponse: Outcome<string>): (r: seq<Request>)
    ensures !(Present(customerId) && Present(token)) ==> r == []
    ensures Present(customerId) && Present(token) && !Present(stored) ==>
      |r| >= 1 && r[0] == PostCreateOrder(customerId)
    ensures forall i :: 0 <= i < |r| && r[i].PostCreateOrder? ==> i == 0 && !Present(stored)
    ensures forall i :: 0 <= i < |r| && r[i].GetOrder? ==> r[i] == GetOrder(stored)
    ensures |r| <= 2 && forall q :: q in r ==> q.PostCreateOrder? || q.GetOrder?
    ensures forall i, j :: 0 <= i < j < |r| ==> !(r[i].GetOrder? && r[j].GetOrder?)
    ensures (exists i :: 0 <= i < |r| && r[i].GetOrder?) <==>
      Present(customerId) && Present(token) && (Present(stored) || createResponse.Success?)
  {
    if !(Present(customerId) && Present(token)) then []
    else if Present(stored) then
      var r := [GetOrder(stored)];
      assert r[0].GetOrder?;
      r
    else if createResponse.Success? then
      var r := [PostCreateOrder(customerId), GetOrder(stored)];
      assert r[1].GetOrder?;
      r
    else [PostCreateOrder(customerId)]
  }

  class CartPage {
    const storage: LocalStorage
    var cartItems: seq<OrderItem>
    var loading: bool
    var error: Option<string>
    var cep: string
    var address: Address
    var showForm: bool
    var showPix: bool
    var showCart: bool
    var orderId: Option<string>
    var navigatedTo: Option<string>
    var lastAlert: Option<Alert>
    var requests: seq<Request>

    /** The page as first rendered: loading, no items, empty address, the cart grid shown. */
    constructor (storage: LocalStorage)
      ensures this.storage == storage
      ensures cartItems == [] && loading && error == None && cep == "" && address == EmptyAddress
      ensures !showForm && !showPix && showCart && orderId == None
      ensures navigatedTo == None && lastAlert == None && requests == []
    {
      this.storage := storage;
      cartItems := [];
      loading := true;
      error := None;
      cep := "";
      address := EmptyAddress;
      showForm := false;
      showPix := false;
      showCart := true;
      orderId := None;
      navigatedTo := None;
      lastAlert := None;
      requests := [];
    }

    /**
     * `fetchCartItems`, the mount effect. Without a stored customer id and
     * token it only asks the customer to log in (and stays loading).
     * Otherwise it adopts the stored order id or creates and persists a new
     * one, fetches the order named by the stored id, and stops loading:
     * with the fetched items on success, with an error message on failure.
     */
    method FetchCartItems(createResponse: Outcome<string>, fetchResponse: Outcome<seq<OrderItem>>)
      modifies this`cartItems, this`loading, this`error, this`orderId, this`navigatedTo
      modifies this`lastAlert, this`requests, storage
      ensures requests == old(requests) + CartLoadCalls(old(storage.GetItem(IdUser)),
        old(storage.GetItem(AuthToken)), old(storage.GetItem(OrderId)), createResponse)
      ensures !(Present(old(storage.GetItem(IdUser))) && Present(old(storage.GetItem(AuthToken)))) ==>
        && navigatedTo == Some(LoginRoute) && lastAlert == Some(LoginRequired)
        && cartItems == old(cartItems) && loading == old(loading) && error == old(error)
        && orderId == old(orderId) && storage.items == old(storage.items)
      ensures Present(old(storage.GetItem(IdUser))) && Present(old(storage.GetItem(AuthToken))) ==>
        && !loading && navigatedTo == old(navigatedTo) && lastAlert == old(lastAlert)
        && (Present(old(storage.GetItem(OrderId))) ==>
              orderId == old(storage.GetItem(OrderId)) && storage.items == old(storage.items))
        && (!Present(old(storage.GetItem(OrderId))) && createResponse.Success? ==>
              && orderId == Some(createResponse.value)
              && storage.items == OrderRemembered(old(storage.items), createResponse.value))
        && (!Present(old(storage.GetItem(OrderId))) && createResponse.Failure? ==>
              && orderId == old(orderId) && storage.items == old(storage.items)
              && cartItems == old(cartItems) && error == Some(CartLoadError))
        && (Present(old(storage.GetItem(OrderId))) || createResponse.Success? ==>
              if fetchResponse.Success? then cartItems == fetchResponse.value && error == old(error)
              else cartItems == old(cartItems) && error == Some(CartLoadError))
    {
      var customerId := storage.GetItem(IdUser);
      var accessToken := storage.GetItem(AuthToken);
      var orderIdFromStorage := storage.GetItem(OrderId);
      if !Present(customerId) || !Present(accessToken) {
        lastAlert := Some(LoginRequired);
        navigatedTo := Some(LoginRoute);
        return;
      }
      if !Present(orderIdFromStorage) {
        requests := requests + [PostCreateOrder(customerId)];
        match createResponse
        case Failure =>
          error := Some(CartLoadError);
          loading := false;
          return;
        case Success(newOrderId) =>
          storage.SetItem(OrderId, newOrderId);
          orderId := Some(newOrderId);
      } else {
        orderId := orderIdFromStorage;
      }
      // The fetch names the order id read before any creation.
      requests := requests + [GetOrder(orderIdFromStorage)];
      match fetchResponse
      case Success(items) =>
        cartItems := items;
        loading := false;
      case Failure =>
        error := Some(CartLoadError);
        loading := false;
    }

    /**
     * `handleCepChange`: the input is always kept; only an input of exactly
     * eight characters is looked up, and only a successful lookup changes the
     * address.
     */
    method HandleCepChange(newCep: string, lookup: Outcome<CepAddress>)
      modifies this`cep, this`address, this`lastAlert, this`requests
      ensures cep == newCep
      ensures requests == old(requests) + (if IsCompleteCep(newCep) then [GetCep(newCep)] else [])
      ensures address == if IsCompleteCep(newCep) && lookup.Success? then WithCep(old(address), lookup.value)
                         else old(address)
      ensures lastAlert == if IsCompleteCep(newCep) && lookup.Failure? then Some(CepLookupFailed)
                           else old(lastAlert)
    {
      cep := newCep;
      if IsCompleteCep(newCep) {
        requests := requests + [GetCep(newCep)];
        match lookup
        case Success(found) =>
          address := WithCep(address, found);
        case Failure =>
          lastAlert := Some(CepLookupFailed);
      }
    }

    /** Editing the number input changes only the number. */
    method SetNumber(value: string)
      modifies this`address
      ensures address == old(address).(number := value)
    {
      address := address.(number := value);
    }

    /** Editing the complement input changes only the complement. */
    method SetComplement(value: string)
      modifies this`address
      ensures address == old(address).(complement := value)
    {
      address := address.(complement := value);
    }

    /** The checkout button opens the address form. */
    method OpenAddressForm()
      modifies this`showForm
      ensures showForm
    {
      showForm := true;
    }

    /**
     * `handleFinalizeOrder`: sends the page's order id with the composed
     * delivery address; on success shows the payment view and hides the form
     * and the cart grid, on failure changes nothing.
     */
    method HandleFinalizeOrder(response: Outcome<()>)
      modifies this`showPix, this`showForm, this`showCart, this`requests
      ensures requests == old(requests) + [PostFinalize(orderId, FullAddress(address))]
      ensures response.Success? ==> showPix && !showForm && !showCart
      ensures response.Failure? ==>
        showPix == old(showPix) && showForm == old(showForm) && showCart == old(showCart)
    {
      var fullAddress := FullAddress(address);
      requests := requests + [PostFinalize(orderId, fullAddress)];
      if response.Success? {
        showPix := true;
        showForm := false;
        showCart := false;
      }
    }

    /**
     * `handlePixConfirmed`: without an order id it only reports the order as
     * not found; otherwise it confirms the payment and, on success, forgets
     * the persisted order id (keeping the identity) and returns to the
     * catalogue.
     */
    method HandlePixConfirmed(response: Outcome<()>)
      modifies this`navigatedTo, this`lastAlert, this`requests, storage
      ensures !Present(orderId) ==>
        && requests == old(requests) && storage.items == old(storage.items)
        && navigatedTo == old(navigatedTo) && lastAlert == Some(OrderNotFound)
      ensures Present(orderId) ==> requests == old(requests) + [PutCompletePayment(orderId.value)]
      ensures Present(orderId) && response.Success? ==>
        && storage.items == OrderForgotten(old(storage.items))
        && navigatedTo == Some(HomeRoute) && lastAlert == Some(PaymentConfirmed)
      ensures Present(orderId) && response.Failure? ==>
        && storage.items == old(storage.items)
        && navigatedTo == old(navigatedTo) && lastAlert == old(lastAlert)
    {
      if !Present(orderId) {
        lastAlert := Some(OrderNotFound);
        return;
      }
      requests := requests + [PutCompletePayment(orderId.value)];
      if response.Success? {
        lastAlert := Some(PaymentConfirmed);
        storage.RemoveItem(OrderId);
        navigatedTo := Some(HomeRoute);
      }
    }

    /**
     * `handleDeleteItem`: without a token nothing is sent and the list stays;
     * otherwise the deletion is requested and, only once it succeeds, the
     * items with that id leave the local list.
     */
    method HandleDeleteItem(itemId: int, response: Outcome<()>)
      modifies this`cartItems, this`lastAlert, this`requests
      ensures !Present(storage.GetItem(AuthToken)) ==>
        requests == old(requests) && cartItems == old(cartItems) && lastAlert == Some(LoginRequired)
      ensures Present(storage.GetItem(AuthToken)) ==> requests == old(requests) + [DeleteOrderItem(itemId)]
      ensures Present(storage.GetItem(AuthToken)) && response.Success? ==>
        cartItems == Without(old(cartItems), itemId) && lastAlert == Some(ItemRemoved)
      ensures Present(storage.GetItem(AuthToken)) && response.Failure? ==>
        cartItems == old(cartItems) && lastAlert == old(lastAlert)
    {
      var accessToken := storage.GetItem(AuthToken);
      if !Present(accessToken) {
        lastAlert := Some(LoginRequired);
        return;
      }
      requests := requests + [DeleteOrderItem(itemId)];
      if response.Success? {
        cartItems := Without(cartItems, itemId);
        lastAlert := Some(ItemRemoved);
      }
    }
  }

  /**
   * Checkout of stored order "42": the lookup fills the street part of the
   * address, the customer types the number, finalization sends the composed
   * address and shows the payment view, and a confirmed payment forgets the
   * order id but keeps the identity.
   */
  method CheckoutScenario() {
    var storage := new LocalStorage(map[AuthToken := "Bearer t", IdUser := "7", OrderId := "42"]);
    var page := new CartPage(storage);
    page.FetchCartItems(Failure, Success([]));
    assert page.orderId == Some("42") && !page.loading && page.error == None;
    page.OpenAddressForm();
    page.HandleCepChange("01001000", Success(CepAddress("Rua X", "Centro", "Springfield", "SP")));
    page.SetNumber("10");
    assert page.address == Address("Rua X", "Centro", "Springfield", "SP", "10", "");
    FullAddressExample();
    page.HandleFinalizeOrder(Success(()));
    assert page.requests[|page.requests| - 1] == PostFinalize(Some("42"), "Rua X, 10 - , Centro, Springfield - SP");
    assert page.showPix && !page.showForm && !page.showCart;
    page.HandlePixConfirmed(Success(()));
    assert storage.GetItem(OrderId) == None;
    assert storage.GetItem(AuthToken) == Some("Bearer t") && storage.GetItem(IdUser) == Some("7");
    assert page.navigatedTo == Some(HomeRoute);
  }
}
