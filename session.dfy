/**
 * The state shared by every page of the storefront: the browser's persisted
 * key/value store (three optional strings), the outcome of a remote call, the
 * log of requests a page has issued, the notifications it has shown and the
 * routes it navigates to.
 */
module Session {

  datatype Option<+T> = None | Some(value: T)

  /** The result of one remote (HTTP) call: the value it answered with, or a failure. */
  datatype Outcome<+T> = Success(value: T) | Failure

  /** The keys the storefront keeps in the browser's persisted store. */
  datatype Key = AuthToken | IdUser | OrderId

  type Items = map<Key, string>

  /**
   * A stored value counts as present when it exists and is not the empty
   * string: the pages test `!value`, and both a missing key (`null`) and ""
   * are falsy.
   */
  predicate Present(v: Option<string>) {
    v.Some? && v.value != ""
  }

  /** Key `k` is absent from both maps or maps to the same value in both. */
  predicate Agree(a: Items, b: Items, k: Key) {
    (k in a <==> k in b) && (k in a ==> a[k] == b[k])
  }

  /** Routes the pages navigate to. */
  const HomeRoute := "/"
  const LoginRoute := "/login"

  /** The remote calls the pages issue, with the data each one carries. */
  datatype Request =
    | PostSignIn(email: string, pass: string)
    | GetProducts
    | PostCreateOrder(idCostumer: Option<string>)
    | GetOrder(orderId: Option<string>)
    | PostOrderItem(quantity: int, idOrder: string, idProduct: int)
    | DeleteOrderItem(itemId: int)
    | GetCep(cep: string)
    | PostFinalize(orderId: Option<string>, deliveryAddress: string)
    | PutCompletePayment(idOrder: string)

  /** The notifications (`alert`) the pages show; only the last one is kept. */
  datatype Alert =
    | LoginRequired
    | LoginSucceeded
    | OrderCreationFailed
    | ItemAdded(productName: string, quantity: int)
    | ItemAttachFailed
    | OrderNotFound
    | CepLookupFailed
    | PaymentConfirmed
    | ItemRemoved

  /** The browser's persisted key/value store (`localStorage`). */
  class LocalStorage {
    var items: Items

    constructor (initial: Items)
      ensures items == initial
    {
      items := initial;
    }

    /** `getItem`: the stored value, or None (`null`) when the key is absent. */
    function GetItem(key: Key): (v: Option<string>)
      reads this
      ensures v.Some? <==> key in items
      ensures v.Some? ==> v.value == items[key]
    {
      if key in items then Some(items[key]) else None
    }

    /** `setItem`: stores `value` under `key`; no other key changes. */
    method SetItem(key: Key, value: string)
      modifies this
      ensures items == old(items)[key := value]
    {
      items := items[key := value];
    }

    /** `removeItem`: drops `key`; no other key changes. */
    method RemoveItem(key: Key)
      modifies this
      ensures items == old(items) - {key}
    {
      items := items - {key};
    }
  }

  /** The store after a successful sign-in wrote the token and the customer id. */
  function SessionEstablished(items: Items, token: string, id: string): (r: Items)
    ensures AuthToken in r && r[AuthToken] == token
    ensures IdUser in r && r[IdUser] == id
    ensures Agree(r, items, OrderId)
  {
    items[AuthToken := token][IdUser := id]
  }

  /** The store after a newly created order id was persisted. */
  function OrderRemembered(items: Items, id: string): (r: Items)
    ensures OrderId in r && r[OrderId] == id
    ensures Agree(r, items, AuthToken) && Agree(r, items, IdUser)
  {
    items[OrderId := id]
  }

  /** The store after a confirmed payment dropped the order id. */
  function OrderForgotten(items: Items): (r: Items)
    ensures OrderId !in r
    ensures Agree(r, items, AuthToken) && Agree(r, items, IdUser)
  {
    items - {OrderId}
  }

  /** The store after logout removed all three keys: nothing is left. */
  function SessionCleared(items: Items): (r: Items)
    ensures forall k: Key :: k !in r
  {
    var r := items - {AuthToken, IdUser, OrderId};
    assert forall k: Key :: k in r ==> k == AuthToken || k == IdUser || k == OrderId;
    r
  }

  /**
   * Signing in again after a logout restores the identity but not an order:
   * the next order must be created afresh.
   */
  lemma ReloginAfterLogoutHasNoOrder(items: Items, token: string, id: string)
    ensures var r := SessionEstablished(SessionCleared(items), token, id);
      OrderId !in r && r[AuthToken] == token && r[IdUser] == id
  {
  }
}
