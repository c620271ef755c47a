# Storefront session and cart state machine, in Dafny

This project models the client-side session and cart logic of a small
e-commerce storefront. The logic is spread over three page components: the
login page, the product catalogue and the cart/checkout page. Together they
drive one shopping session:

- signing in persists a bearer token and a customer id;
- the first add-to-cart creates an order and persists its id;
- items are attached to and deleted from that order;
- a postal-code (CEP) lookup fills the delivery address;
- the order is finalized with the composed address string;
- a simulated PIX payment confirmation forgets the order id;
- logout clears everything.

The browser's persisted key/value store (`localStorage`) is a class,
`Session.LocalStorage`, holding a map from the three keys `AuthToken`,
`IdUser` and `OrderId` to strings. All three pages share it. Each page is a
class whose fields are the component's state: the local cart or order items,
the page's order id, the selected quantity, the address and CEP, and the
loading, error and view flags. Each page also records the last route it
navigated to, the last notification it showed and the log of remote requests
it issued. Each event handler is a method. Every remote call is an explicit
`Outcome` parameter, `Success(value)` or `Failure`, so each handler is one
deterministic step. Its contract states the guard, which requests were
issued, which state changed and how, and what a failure leaves alone. The
pages test stored values with JavaScript truthiness, so a value is
`Present` when it exists and is not the empty string.

The small pure pieces are functions with lemmas about them:

- the quantity clamp (`ClampQuantity`);
- the CEP length gate (`IsCompleteCep`);
- the address merge after a lookup (`WithCep`);
- the delivery-address composition (`FullAddress`);
- the deletion filter (`Without`);
- the storage transitions (`SessionEstablished`, `OrderRemembered`,
  `OrderForgotten`, `SessionCleared`);
- the requests a cart load or an add-to-cart issues (`CartLoadCalls`,
  `AddToCartCalls`).

Two client methods, `Products.FirstAddScenario` and `Cart.CheckoutScenario`,
replay a first add-to-cart and a full checkout using only the handlers'
contracts.

Behaviour the model keeps as the code has it:

- The cart page fetches the order named by the `orderId` it read from
  storage before creating one (src/pages/CartPage.jsx:31,55). When it has
  just created the order, the fetch names no order
  (`GetOrder(None)` in `CartLoadCalls`).
- `addToCart` appends `{...product, quantity}` to the local cart before the
  attach request and keeps it whatever that request answers
  (src/pages/ProductsPage.jsx:80-81).
- `addToCart` decides to attach with the order id it held when it began
  (src/pages/ProductsPage.jsx:73-77,92). The first add of a session
  therefore creates the order but attaches nothing, and reports
  "order not found".
- A cart load without a stored identity navigates to `/login` but never
  clears `loading`.
- Finalization checks neither the order id nor the token
  (src/pages/CartPage.jsx:91-116).
- Payment confirmation removes the persisted order id but not the page's own
  `orderId`.

Behaviour the code does not have, though a reader might expect it:

- The local cart is updated before the attach request is answered; nothing
  waits for a confirmation.
- The CEP gate tests the length only; the characters are not checked to be
  digits.
- Finalization does not check that the address is complete.
- The first add-to-cart does not attach the item after creating the order.
- The client computes no line totals.

## Model

| member | source | states |
|---|---|---|
| `Session.LocalStorage.GetItem` | src/pages/CartPage.jsx:29-31 | reading a key gives its stored value, or None (`null`) exactly when the key is absent |
| `Session.LocalStorage.SetItem` | src/pages/LoginPage.jsx:28-29 | writing a key stores the value under that key and changes no other key |
| `Session.LocalStorage.RemoveItem` | src/pages/ProductsPage.jsx:113-115 | removing a key drops that key and changes no other key |
| `Session.SessionEstablished` | src/pages/LoginPage.jsx:28-29 | after sign-in the store holds the answered token and customer id, and the order id is exactly as before (present with the same value, or absent) |
| `Session.OrderRemembered` | src/pages/ProductsPage.jsx:56 | persisting a new order id sets it and leaves token and customer id as they were |
| `Session.OrderForgotten` | src/pages/CartPage.jsx:151 | after a confirmed payment the order id is gone while token and customer id are unchanged |
| `Session.SessionCleared` | src/pages/ProductsPage.jsx:113-115 | after logout no key is left in the store |
| `Session.ReloginAfterLogoutHasNoOrder` | src/pages/LoginPage.jsx:27-29 | signing in after a logout restores the identity but no order id, so the next order is created afresh |
| `Login.WithField` | src/pages/LoginPage.jsx:11-14 | the edited field takes the new value and the other field keeps its old one |
| `Login.LoginPage.constructor` | src/pages/LoginPage.jsx:7-8 | the form starts with empty email and password and no error |
| `Login.LoginPage.HandleChange` | src/pages/LoginPage.jsx:11-14 | an input event replaces only the field it names |
| `Login.LoginPage.HandleSubmit` | src/pages/LoginPage.jsx:16-36 | the form is posted; on success token and customer id are persisted and the page goes to `/`; on failure the error message is set, nothing is written and there is no navigation; the persisted order id is never touched |
| `Products.ClampQuantity` | src/pages/ProductsPage.jsx:211 | the stored quantity is the maximum of 1 and the input: at least 1, at least the input, and equal to one of them |
| `Products.AddToCartCalls` | src/pages/ProductsPage.jsx:72-104 | an authenticated add issues at most one request, and it is an order creation or an item attach; an order creation exactly when no order id was held and a token is stored; an attach `{quantity, id_order, id_product}` exactly when an order id was held and a token is stored |
| `Products.ProductsPage.constructor` | src/pages/ProductsPage.jsx:7-12 | the page starts with an empty cart, no order id, quantity 1 and not authenticated |
| `Products.ProductsPage.Mount` | src/pages/ProductsPage.jsx:14-38 | the quantity invariant is kept; `isAuthenticated` holds exactly when a token is stored; a stored order id is adopted, otherwise the page's order id stays; the catalogue is replaced only on a successful fetch |
| `Products.ProductsPage.SetQuantity` | src/pages/ProductsPage.jsx:211 | an edit stores the clamped input, so the quantity stays at least 1 |
| `Products.ProductsPage.CreateOrder` | src/pages/ProductsPage.jsx:41-62 | the quantity invariant is kept; without a token no request is sent, nothing is stored and the page goes to `/login`; on success the page's and the persisted order id both equal the answered id; on failure both are unchanged |
| `Products.ProductsPage.AddToCart` | src/pages/ProductsPage.jsx:65-109 | unauthenticated: cart, order, store and requests unchanged and navigation to `/login`; authenticated: exactly one entry `(product, quantity)` appended at the end whatever the attach answers, its quantity at least 1 by the page invariant, the requests are those of `AddToCartCalls` with the order id held at the start, and the "order not found" branch runs when none was held |
| `Products.ProductsPage.HandleLogout` | src/pages/ProductsPage.jsx:111-119 | the quantity invariant is kept; the three keys are removed, the page is no longer authenticated, holds no order id and goes to `/login` |
| `Cart.CepGateLengthOnly` | src/pages/CartPage.jsx:74 | the lookup gate `IsCompleteCep` depends on the input's length alone: equal-length inputs are treated alike, so "0100-000" passes and "01001-000" does not |
| `Cart.WithCep` | src/pages/CartPage.jsx:77-84 | a successful lookup overwrites street, neighborhood, city and state and keeps number and complement |
| `Cart.FullAddress` | src/pages/CartPage.jsx:96 | the delivery string is twelve characters longer than the six fields together, starts with the street and ends with the state; `FullAddressLayout` gives every field's position |
| `Cart.FullAddressLayout` | src/pages/CartPage.jsx:96 | the delivery string is street, number, complement, neighborhood, city and state in that order, joined by ", ", " - ", ", ", ", " and " - ", and twelve characters longer than the fields |
| `Cart.FullAddressExample` | src/pages/CartPage.jsx:96 | ("Rua X", "10", "", "Centro", "Springfield", "SP") composes to "Rua X, 10 - , Centro, Springfield - SP" |
| `Cart.Without` | src/pages/CartPage.jsx:174-176 | an item is kept exactly when it was in the list and its `idOrderCostumer` differs from the deleted id; the list never grows |
| `Cart.WithoutConcat` | src/pages/CartPage.jsx:174-176 | deletion distributes over concatenation, so the kept items keep their relative order |
| `Cart.WithoutUnmatched` | src/pages/CartPage.jsx:174-176 | deleting an id no item carries leaves the list unchanged |
| `Cart.WithoutIdempotent` | src/pages/CartPage.jsx:174-176 | deleting the same id twice is the same as deleting it once |
| `Cart.WithoutAppendedRoundTrip` | src/pages/CartPage.jsx:174-176 | appending an item with a fresh id and then deleting that id gives back the original list |
| `Cart.CartLoadCalls` | src/pages/CartPage.jsx:28-65 | without customer id and token nothing is requested; at most two requests, each an order creation or an order fetch, with at most one fetch; with no stored order id exactly one creation is issued, first; the fetch is issued unless creation failed and always names the order id read before creation |
| `Cart.CartPage.constructor` | src/pages/CartPage.jsx:8-25 | the page starts loading, with no items, an empty address and CEP, no order id, the cart grid shown and form and payment view hidden |
| `Cart.CartPage.FetchCartItems` | src/pages/CartPage.jsx:27-68 | without identity only navigation to `/login`; otherwise the stored order id is adopted, or a created one is both persisted and held; loading ends false; on a successful fetch the items are the fetched ones and the error is untouched; on a failure the error message is set and the items are unchanged |
| `Cart.CartPage.HandleCepChange` | src/pages/CartPage.jsx:70-89 | the CEP field always takes the input; a lookup is requested exactly when the input has length 8; only a successful lookup changes the address (via `WithCep`), a failed one only notifies |
| `Cart.CartPage.SetNumber` | src/pages/CartPage.jsx:478-480 | editing the number changes only the number of the address |
| `Cart.CartPage.SetComplement` | src/pages/CartPage.jsx:494-496 | editing the complement changes only the complement of the address |
| `Cart.CartPage.OpenAddressForm` | src/pages/CartPage.jsx:391 | the checkout button shows the address form |
| `Cart.CartPage.HandleFinalizeOrder` | src/pages/CartPage.jsx:91-116 | finalization is requested with the page's order id and `FullAddress` of the address; success shows the payment view and hides form and cart; failure leaves all three flags as they were |
| `Cart.CartPage.HandlePixConfirmed` | src/pages/CartPage.jsx:137-157 | without an order id no request is sent, the store is unchanged and "order not found" is shown; on success only the persisted order id is removed and the page goes to `/`; on failure the store and navigation are unchanged |
| `Cart.CartPage.HandleDeleteItem` | src/pages/CartPage.jsx:159-181 | without a token no request is sent and the list is unchanged; on success exactly the items with that id leave the list (`Without`); on failure the list is unchanged |

## Left out

- Rendering: all JSX markup and inline styles, and the header buttons of the cart page that only change the route (src/pages/CartPage.jsx:214, 235). They are presentation.
- HTTP transport: URLs, headers and response parsing. Each call is a `Success(value)` or `Failure` parameter. A response of an unexpected shape, such as a fetch answer without items or a lookup answer without address fields, counts as one of these two outcomes. The remote services themselves are not modelled.
- QR-code generation (`generateQRCode`, src/pages/CartPage.jsx:118-135) and the `qrCodeDataUrl` state: they call a foreign library, and the shown image is a fixed literal.
- Price display (`price / 100` formatted with two decimals): floating-point formatting for presentation only.
- Concurrency: each handler is one atomic step, so double clicks and overlapping requests are not modelled. React's deferred state updates collapse into that step. The order id and quantity captured at the start of `addToCart` are kept explicitly.
- `alert`, `console.log` and `console.error`: only the last alert is kept, as a value of `Alert`; console output is dropped. Alerts are told apart by meaning, not by text: the five "you must be logged in" texts (src/pages/ProductsPage.jsx:44,67,87 and src/pages/CartPage.jsx:34,162) are all `LoginRequired`, and the two "order not found" texts (src/pages/ProductsPage.jsx:103 and src/pages/CartPage.jsx:139) are both `OrderNotFound`.
- Value coercions of JavaScript: stored values, order ids and customer ids are strings; item ids and product ids are `int`. `undefined` fields are not modelled. Only the store turns ids into strings: the page state keeps the raw `id_order` of the creation answer (src/pages/ProductsPage.jsx:54-55, src/pages/CartPage.jsx:47-49), so the model does not capture two consequences of a numeric id. First, an order id of 0 held by a page is falsy for `!orderId` (src/pages/ProductsPage.jsx:73,92, src/pages/CartPage.jsx:138) while the stored "0" is truthy; the model treats the held and the stored id alike. Second, the attach and payment-completion request bodies carry the id as a number (src/pages/ProductsPage.jsx:96, src/pages/CartPage.jsx:146), where the model's `Request` carries a string.
- Render gates: every handler is modelled as callable in any page state. In the page, what is rendered limits which handlers a user can reach: nothing but a message is shown while loading or after a load error (src/pages/CartPage.jsx:183-189); the item list and the checkout button need a non-empty cart (src/pages/CartPage.jsx:265); the address inputs and the finalize button need `showForm` (src/pages/CartPage.jsx:409), and the CEP input accepts at most 8 characters (src/pages/CartPage.jsx:417), so typed input never reaches `handleCepChange` longer than 8 (a typed "01001-000" arrives as "01001-00" and is looked up; the 9-character case of `CepGateLengthOnly` is reachable only by calling the handler directly); the PIX button needs `showPix` (src/pages/CartPage.jsx:523). The contracts therefore also cover states the user cannot reach through the page.
- Products.ClampQuantity: the input is the integer value of the quantity field; fractional input and `NaN` (for which `Math.max` answers `NaN`) are not modelled.
- Cart.CartPage.HandleCepChange: input length counts Unicode scalar values, whereas JavaScript counts UTF-16 code units, so the two differ for characters outside the Basic Multilingual Plane.
- The product list fetched on mount is modelled only as a replaced sequence. The user profile, registration and password-recovery pages, the navigation bar and the routing table are outside this model.
