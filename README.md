# Checkout saga of an e-commerce backend, in Dafny

This project models the checkout path of a Go micro-service shop and
proves properties of the model.

- The **cart service** keeps a `cart` table and a `cart_items` table.
  `AddToCartDB` finds or creates the user's active cart, then inserts a
  line or merges into the existing line, checking stock. `GetActiveCartItems`
  reads the active cart's lines. Both run inside a transaction helper
  (`withTx`) that commits only when every statement succeeded.
- The cart service's HTTP handler `AddToCart` guards the store call
  (claims, request body, product lookup, stock). Its gRPC endpoint
  `GetCartDetails` copies the active cart's lines into a protobuf response.
- The **order service** keeps `orders` and `order_items`. `CreateOrder`
  inserts a `pending` order and one item row per cart line in one
  transaction. `UpdateOrder` overwrites the status and payment id of one
  existing order and fails when no row matches.
- The **checkout handlers** (`Checkout`, and `CheckoutV2`, which reads the
  cart over gRPC) run a fixed sequence of guarded steps: identity, cart,
  catalog, per-item validation, Stripe line items plus a JSON product
  manifest, the Stripe session, and `CreateOrder` last.
- The **Stripe webhook** acts on `payment_intent.succeeded` only. It
  publishes one `OrderPaidEvent` per manifest entry to Kafka, marks the
  order `paid`, and mails a confirmation.

Modelling choices:

- Database tables are values inside the two `Store` classes. Every method
  is tied to a pure effect function of the old tables, for example
  `TxRun(r, Tables()) == AddToCartEffect(old(Tables()), …)`. The lemmas
  are stated about those functions.
- `withTx` is `Transactions.RunTx`: the new state if the transaction
  begins, its body succeeds and it commits; the old state otherwise.
- A database failure is a *fault* parameter that names the one statement
  that fails.
- Every outside service is an input:
  - Consul, the user and cart services over HTTP, and the product service
    (a map from product id to its answer; an absent product is a failed
    lookup);
  - the cart service over gRPC (a function from request to result);
  - Stripe (the session it returns, or none);
  - Kafka (the index of the first message that fails);
  - the clock and the generated uuids.
- JSON text is represented by its decoding. Numbers decode to reals, and
  the webhook truncates them toward zero as Go's `int(float64)` does.
- `Saga.CheckoutThenSettle` ties the pieces together. A purchasable cart
  read over gRPC becomes a pending order and a Stripe session. The succeeded
  payment intent carrying that session's metadata then marks the order
  paid and publishes one event per cart line, in cart order.

Files: `wrappers.dfy`, `transactions.dfy`, `go_int.dfy` and `http.dfy` are
shared vocabulary. There is one file per core source file: `cart_store.dfy`,
`order_store.dfy`, `cart_handlers.dfy`, `grpc_cart.dfy`, `orders_handler.dfy`,
`orders_handler_v2.dfy` and `webhook.dfy`. `payment_metadata.dfy` holds the
manifest format the checkout and the webhook share, and `saga.dfy` holds
the end-to-end lemma.

## Model

| member | source | states |
|---|---|---|
| Transactions.RunTx | cart-service/internal/cart/cart.go:163-183 | a transaction passes iff it begins, its body succeeds and it commits; it then yields the body's state, and on any failure the state from before; a body error is reported as that error |
| GoInt.Int64 | order-service/internal/orders/orders.go:60 | the int64 product wraps: the result is the unique int64 congruent to the exact value mod 2^64, and equals it when it fits |
| GoInt.Truncate | order-service/handlers/webhook.go:70 | float-to-int conversion discards the fraction, rounding toward zero on both signs |
| GoInt.TruncateOfInt | order-service/handlers/webhook.go:70 | an integer sent as a JSON number is read back unchanged |
| CartStore.ActiveCart | cart-service/internal/cart/cart.go:26-36 | the active-cart query finds an active cart of the user, and finds none only when the user has no active cart |
| CartStore.FindLine | cart-service/internal/cart/cart.go:54-62 | the line query finds a line of that cart for that product, and none only when no such line exists |
| CartStore.ActiveItems | cart-service/internal/cart/cart.go:106-161 | the read succeeds iff the user has an active cart and every row is read; it then returns exactly that cart's (product, quantity) lines; with no active cart it fails with "no active cart" |
| CartStore.LinesOf | cart-service/internal/cart/cart.go:128-145 | the items query read in table order: the (product, quantity) of every line of the cart; LinesOfMembership, LinesOfUnreferenced and LinesOfAppend state its meaning |
| CartStore.TargetCart | cart-service/internal/cart/cart.go:26-47 | the cart an add writes into: the active one, or the one created at the next row position; AddToCartReusesActiveCart and AddToCartCreatesOneActiveCart state its meaning |
| CartStore.AddToCartBody | cart-service/internal/cart/cart.go:24-102 | the callback inside withTx: find or create the cart, find the line, check stock, then insert or merge, each statement failing as the fault names; the AddToCart lemmas below state its meaning |
| CartStore.AddToCartEffect | cart-service/internal/cart/cart.go:22-104 | AddToCartBody run through withTx (`RunTx`); AddToCartPreservesConsistent, AddToCartStaysWithinStock, AddToCartNewLineOverStock and AddToCartMergeOverStock state what it does |
| CartStore.LinesOfMembership | cart-service/internal/cart/cart.go:128-145 | an item is read back iff some cart_items row of the cart holds that product and quantity |
| CartStore.LinesOfUnreferenced | cart-service/internal/cart/cart.go:128-145 | a cart no line refers to reads as empty |
| CartStore.LinesOfAppend | cart-service/internal/cart/cart.go:72-79 | an inserted line is read back after the cart's earlier lines |
| CartStore.ActiveCartIsTheActiveOne | cart-service/internal/cart/cart.go:26-36 | with at most one active cart per user, the query finds exactly that cart |
| CartStore.AddToCartPreservesConsistent | cart-service/internal/cart/cart.go:22-104 | whatever happens, each user keeps at most one active cart, each cart at most one line per product, and every line points at a cart |
| CartStore.AddToCartReusesActiveCart | cart-service/internal/cart/cart.go:26-51 | an existing active cart is reused: no cart row is added |
| CartStore.AddToCartCreatesOneActiveCart | cart-service/internal/cart/cart.go:36-47 | a successful first add appends one active cart for the user, and it is the user's only active cart |
| CartStore.AddToCartNewLineOverStock | cart-service/internal/cart/cart.go:65-69 | a new product asked for beyond stock fails with "insufficient stock (quantity, stock)" and leaves both tables unchanged, including the cart created earlier in the call |
| CartStore.AddToCartNewLine | cart-service/internal/cart/cart.go:72-79 | a new product within stock appends exactly the line (cart, product, quantity) and keeps every other line |
| CartStore.AddToCartMergesLine | cart-service/internal/cart/cart.go:83-99 | an existing line's quantity becomes existing + quantity in place, every other line is kept, and the product still has that single line |
| CartStore.AddToCartMergeOverStock | cart-service/internal/cart/cart.go:85-88 | a merged total beyond stock fails with "insufficient stock (total, stock)" and changes nothing |
| CartStore.AddToCartStaysWithinStock | cart-service/internal/cart/cart.go:65-99 | after a successful add the product has exactly one line in the user's active cart, with a quantity no greater than the stock given |
| CartStore.ReadAfterNewLine | cart-service/internal/cart/cart.go:72-79 | after adding a new product, reading the cart gives the old lines followed by the new one |
| CartStore.AddThreeThenFour | cart-service/internal/cart/cart.go:85-88 | adding 3 then 4 with stock 5: the second add fails with (7, 5) and the cart still reads 3 |
| CartStore.Store.constructor | cart-service/internal/cart/cart.go:22-104 | an empty store satisfies the table invariants |
| CartStore.Store.AddToCartDB | cart-service/internal/cart/cart.go:22-104 | keeps the invariants; outcome and new tables are those of the transaction over the old tables; the price id has no effect on them |
| CartStore.Store.GetActiveCartItems | cart-service/internal/cart/cart.go:106-161 | the rows.Next loop returns exactly what ActiveItems describes, and the store is not modified |
| CartHandlers.AddToCartGuard | cart-service/handlers/cart.go:26-87 | the store is called iff there are claims, a body that binds, a product id, a positive quantity, a successful lookup and quantity <= stock; it is then called with exactly the caller's subject, the request's product and quantity, and the looked-up stock and price id, so with a positive quantity within that stock |
| CartHandlers.AddToCartSpec | cart-service/handlers/cart.go:23-101 | the guard, then AddToCartDB, with 200 on its success and 500 on its failure; AddToCartUnauthorized through AddToCartOkMeansAdded state its meaning |
| CartHandlers.AddToCartUnauthorized | cart-service/handlers/cart.go:26-31 | no claims gives 401 and the store is untouched |
| CartHandlers.AddToCartRejectsInvalidRequest | cart-service/handlers/cart.go:39-50 | an unbindable body, an empty product id or quantity <= 0 gives 400 without consulting the lookup or touching the store |
| CartHandlers.AddToCartLookupFailures | cart-service/handlers/cart.go:53-76 | failed discovery gives 503, a failed fetch 502 and an undecodable answer 500, with the store untouched |
| CartHandlers.AddToCartOverStock | cart-service/handlers/cart.go:79-84 | a quantity above the looked-up stock gives 409 and the store is untouched |
| CartHandlers.AddToCartCallsStore | cart-service/handlers/cart.go:87-100 | past the guards the store is called with the subject, the request's product and quantity and the looked-up stock and price id; its failure gives 500 and its success 200 |
| CartHandlers.AddToCartOkMeansAdded | cart-service/handlers/cart.go:87-100 | the invariants hold afterwards; any status but 200 leaves the tables unchanged; 200 means the product has a line in the caller's active cart within the looked-up stock |
| CartHandlers.AddToCart | cart-service/handlers/cart.go:23-101 | the handler's response and new tables are AddToCartSpec of the old tables |
| CartHandlers.GetActiveCartItems | cart-service/handlers/cart.go:103-129 | 401 without claims; otherwise the store's items unchanged with 200, or 500 when the store fails |
| GrpcCart.ToPbItems | cart-service/handlers/grpc-cart-handler.go:37-43 | same length as the store's items; item i has the product id and quantity of store item i |
| GrpcCart.ToPbItemsInjective | cart-service/handlers/grpc-cart-handler.go:37-43 | the copy loses nothing: equal responses come from equal item lists |
| GrpcCart.CartDetails | cart-service/handlers/grpc-cart-handler.go:25-49 | for the request's user id unchanged: success iff the store read succeeds; a store error becomes Internal with no response; otherwise the items copied one by one |
| GrpcCart.GetCartDetails | cart-service/handlers/grpc-cart-handler.go:25-49 | the endpoint over the store answers CartDetails of its tables |
| OrderStore.ItemRow | order-service/internal/orders/orders.go:58-70 | the order_items row inserted for one item: generated id, order id, product, quantity, price_per_unit and the int64 total quantity * price, at the order's time; ItemRowsDescribeItems states its meaning |
| OrderStore.ItemRows | order-service/internal/orders/orders.go:58-70 | the rows the item loop inserts, in item order, with the k-th generated id; ItemRowsDescribeItems states its meaning |
| OrderStore.CreateOrderBody | order-service/internal/orders/orders.go:37-74 | the callback inside withTx: insert the pending order (failing on a taken id or the named fault), then the item rows up to the failing one; CreateOrderOutcome and CreateOrderAddsPendingOrder state its meaning |
| OrderStore.CreateOrderEffect | order-service/internal/orders/orders.go:30-83 | CreateOrderBody run through withTx; CreateOrderOutcome, CreateOrderAddsPendingOrder, CreateOrderIsAtomic and CreateOrderPreservesConsistent state what it does |
| OrderStore.UpdateOrderBody | order-service/internal/orders/orders.go:111-132 | the callback inside withTx: the UPDATE (SetStatus), failing on an exec error, zero affected rows or a RowsAffected error; UpdateOrderOutcome states its meaning |
| OrderStore.UpdateOrderEffect | order-service/internal/orders/orders.go:107-141 | UpdateOrderBody run through withTx; UpdateOrderOutcome, LastUpdateWins, UpdateIgnoresCurrentStatus and UpdateOrderIdempotent state what it does |
| OrderStore.SetStatus | order-service/internal/orders/orders.go:114-123 | the UPDATE sets status, transaction id and update time of that row, keeps its other columns and every other row, and adds or removes no row |
| OrderStore.ItemRowsDescribeItems | order-service/internal/orders/orders.go:58-70 | one item row per input item, in input order, with the k-th generated id, the order id, product, quantity, price_per_unit = price and total = int64(quantity * price) |
| OrderStore.CreateOrderOutcome | order-service/internal/orders/orders.go:30-83 | CreateOrder succeeds iff the order id is new and no statement fails |
| OrderStore.CreateOrderAddsPendingOrder | order-service/internal/orders/orders.go:32-70 | success adds one pending order with no transaction id and the supplied total (not recomputed), appends its item rows after the existing ones, and keeps all existing orders |
| OrderStore.CreateOrderIsAtomic | order-service/internal/orders/orders.go:37-79 | any failure leaves neither the order nor any of its items |
| OrderStore.CreateOrderPreservesConsistent | order-service/internal/orders/orders.go:30-83 | every order item still belongs to an order |
| OrderStore.UpdateOrderOutcome | order-service/internal/orders/orders.go:107-141 | UpdateOrder succeeds iff the row exists and no step fails, and then sets only that row; failure changes nothing; an unknown id fails with "no row updated" |
| OrderStore.UpdateOrderPreservesConsistent | order-service/internal/orders/orders.go:107-141 | UpdateOrder never touches order_items |
| OrderStore.LastUpdateWins | order-service/internal/orders/orders.go:114-120 | of two updates of one row the later one wins completely |
| OrderStore.UpdateIgnoresCurrentStatus | order-service/internal/orders/orders.go:114-120 | the update does not read the row's current status or transaction id |
| OrderStore.UpdateOrderIdempotent | order-service/internal/orders/orders.go:114-120 | applying the same update twice, for the same clock value and fault, gives the same tables as once |
| OrderStore.Store.constructor | order-service/internal/orders/orders.go:30-83 | an empty store satisfies the invariant |
| OrderStore.Store.CreateOrder | order-service/internal/orders/orders.go:30-83 | the item-insert loop yields exactly CreateOrderEffect's outcome and tables |
| OrderStore.Store.UpdateOrder | order-service/internal/orders/orders.go:107-141 | yields exactly UpdateOrderEffect's outcome and tables |
| PaymentMetadata.ManifestEntryRoundTrip | order-service/handlers/webhook.go:68-70 | a manifest entry written by checkout passes the webhook's type assertions and reads back as its product id and quantity |
| OrdersHandler.Details | order-service/handlers/orders-handler.go:221-253 | succeeds iff every cart line's product is answered for; then one item per cart line, in order, with the cart's product and quantity and the catalog's price, stock and price id |
| OrdersHandler.ValidItem | order-service/handlers/orders-handler.go:96-100 | the per-item check: stock covers the quantity and a Stripe price id is present; CheckoutFromDetailsInvalidItem and BuildCheckoutLines state its use |
| OrdersHandler.LineItemsOf | order-service/handlers/orders-handler.go:101-104 | one Stripe line item per item, in order, with the item's price id and quantity |
| OrdersHandler.ManifestOf | order-service/handlers/orders-handler.go:105-108 | one `{product_id, quantity}` entry per item, in order |
| OrdersHandler.ManifestDescribesItems | order-service/handlers/orders-handler.go:105-108 | every manifest entry is well typed and reads back as its item's product and quantity |
| OrdersHandler.CheckoutFromDetails | order-service/handlers/orders-handler.go:74-152 | the steps after the cart fetch, in source order: empty details, Stripe key, item validation, session, CreateOrder, URL; the CheckoutFromDetails lemmas state its meaning |
| OrdersHandler.CheckoutSpec | order-service/handlers/orders-handler.go:43-153 | claims, Consul, customer and cart checks, product details, then CheckoutFromDetails; CheckoutUnauthorized through CheckoutOutcome state its meaning |
| OrdersHandler.CheckoutFromDetailsOutcome | order-service/handlers/orders-handler.go:74-152 | any status but 200 leaves the order tables unchanged; 200 answers the session URL and records one pending order for the caller with Stripe's AmountTotal plus its item rows |
| OrdersHandler.CheckoutFromDetailsSession | order-service/handlers/orders-handler.go:95-136 | a session is requested only for a non-empty list of valid items, with the customer, one line item per item and metadata (order id, caller, manifest) |
| OrdersHandler.CheckoutFromDetailsOrderAfterSession | order-service/handlers/orders-handler.go:136-149 | the tables change only after Stripe created the session, by CreateOrder under the metadata's order id with the session's AmountTotal |
| OrdersHandler.CheckoutFromDetailsSummary | order-service/handlers/orders-handler.go:74-152 | non-200 persists nothing; a session only for a non-empty list of valid items with the matching metadata; 200 records the pending order under the session's order id with AmountTotal |
| OrdersHandler.CheckoutFromDetailsEmpty | order-service/handlers/orders-handler.go:74-79 | an empty product list gives 500 with no session and no order |
| OrdersHandler.CheckoutFromDetailsInvalidItem | order-service/handlers/orders-handler.go:95-100 | one item with Stock < Quantity or an empty price id gives 400 "Invalid product in cart" with no session and no order |
| OrdersHandler.CheckoutUnauthorized | order-service/handlers/orders-handler.go:45-50 | no claims gives 401 before any collaborator is consulted |
| OrdersHandler.CheckoutNeedsCustomer | order-service/handlers/orders-handler.go:59-64 | a failed customer lookup or an empty customer id gives 500 with no session and no order |
| OrdersHandler.CheckoutUnknownProduct | order-service/handlers/orders-handler.go:221-253 | a single failed product lookup fails the whole checkout with 500, no session and no order |
| OrdersHandler.CheckoutOutcome | order-service/handlers/orders-handler.go:43-153 | whole Checkout: non-200 persists nothing; a session only for the caller's fully priced, valid, non-empty cart with matching metadata; 200 records the pending order under the session's order id with AmountTotal |
| OrdersHandler.FetchProductDetails | order-service/handlers/orders-handler.go:214-254 | the loop returns Details of the cart, or nothing when the product service is not discovered |
| OrdersHandler.BuildCheckoutLines | order-service/handlers/orders-handler.go:95-109 | the loop succeeds iff every item is valid, and then returns the line items and the manifest |
| OrdersHandler.CompleteCheckout | order-service/handlers/orders-handler.go:74-152 | the shared tail answers and changes the tables exactly as CheckoutFromDetails says |
| OrdersHandler.Checkout | order-service/handlers/orders-handler.go:43-153 | the handler answers and changes the tables exactly as CheckoutSpec says |
| OrdersHandlerV2.CartItemsOf | order-service/handlers/orders-handler-v2.go:161-170 | same length and order; copies product id and quantity |
| OrdersHandlerV2.CartItemsOfStoreItems | order-service/handlers/orders-handler-v2.go:161-170 | the cart service's lines read through the protobuf copy come back as the store's (product, quantity) pairs |
| OrdersHandlerV2.CheckoutV2Spec | order-service/handlers/orders-handler-v2.go:23-135 | claims, Consul and customer checks, the gRPC cart fetch for the caller, product details, then CheckoutFromDetails; CheckoutV2Unauthorized through CheckoutV2Outcome state its meaning |
| OrdersHandlerV2.CheckoutV2Unauthorized | order-service/handlers/orders-handler-v2.go:25-30 | no claims gives 401 and the cart service is never asked |
| OrdersHandlerV2.CheckoutV2ReadsCallersCart | order-service/handlers/orders-handler-v2.go:47-52 | the outcome depends on the cart service only through its answer for the caller's subject; a failed fetch gives 500 with no session and no order |
| OrdersHandlerV2.CheckoutV2EmptyCart | order-service/handlers/orders-handler-v2.go:56-61 | an empty cart gives 500 with no session and no order |
| OrdersHandlerV2.CheckoutV2InvalidItem | order-service/handlers/orders-handler-v2.go:77-82 | an item short of stock or without a price id gives 400 with nothing persisted |
| OrdersHandlerV2.CheckoutV2FromDetails | order-service/handlers/orders-handler-v2.go:47-134 | once the caller's cart is fetched, CheckoutV2 runs the same steps as Checkout on that cart priced by the product service |
| OrdersHandlerV2.CheckoutV2Outcome | order-service/handlers/orders-handler-v2.go:23-135 | whole CheckoutV2: non-200 persists nothing; a session only for the fetched cart, priced and valid, with one manifest entry per line; 200 records the pending order under the session's order id with AmountTotal |
| OrdersHandlerV2.ConvertResponseToItems | order-service/handlers/orders-handler-v2.go:161-170 | the append loop never fails and returns CartItemsOf the response |
| OrdersHandlerV2.FetchCartItems | order-service/handlers/orders-handler-v2.go:137-159 | asks for the given user id; succeeds iff the call does, with the converted items |
| OrdersHandlerV2.CheckoutV2 | order-service/handlers/orders-handler-v2.go:23-135 | the handler answers and changes the tables exactly as CheckoutV2Spec says |
| Webhook.PaidMessages | order-service/handlers/webhook.go:68-85 | one message per manifest entry, in order, each on the paid-order topic keyed by the order id with the entry's product and quantity |
| Webhook.Delivered | order-service/handlers/webhook.go:78-89 | with a failure index below the entry count, exactly the entries before it are published; otherwise all entries are |
| Webhook.WebhookSpec | order-service/handlers/webhook.go:20-112 | bind, event type, intent and manifest decoding, fan-out, UpdateOrder, mail and reply in source order; the Webhook lemmas below state its meaning |
| Webhook.WebhookIgnoresOtherEvents | order-service/handlers/webhook.go:105-111 | any other event type gives 200 "Event type not handled" with its type, and no update, no message and no mail |
| Webhook.WebhookPanicsWithoutData | order-service/handlers/webhook.go:37-40 | a succeeded-payment event without data panics at the read of its raw data; the recovery middleware answers a bare 500, and nothing is published, updated or mailed |
| Webhook.WebhookRejectsMalformed | order-service/handlers/webhook.go:27-64 | an unbindable body, an undecodable intent or an undecodable manifest gives 400 with no update, no message and no mail |
| Webhook.WebhookPublishesManifest | order-service/handlers/webhook.go:67-92 | the messages are the manifest's events in order up to the first failure, their number is the failure index when that lies inside the manifest, and they do not depend on the tables or on how the update goes |
| Webhook.WebhookSettlesOrder | order-service/handlers/webhook.go:95-103 | the update uses the metadata's order id, StatusPaid and the intent's id; mail follows only a successful update; a failed update changes nothing; the client gets the same bare 200 either way |
| Webhook.WebhookPublishesWithoutOrder | order-service/handlers/webhook.go:67-100 | for an unknown order id the events are still published while the update fails, nothing changes, no mail is sent, and the reply is still a bare 200 |
| Webhook.WebhookRedelivery | order-service/handlers/webhook.go:67-96 | with no status pre-check, a redelivered event, for the same clock value and collaborator behaviour, re-publishes the same messages and leaves the same tables |
| Webhook.FanOut | order-service/handlers/webhook.go:67-92 | the goroutine's loop publishes exactly the delivered prefix of PaidMessages |
| Webhook.HandleWebhook | order-service/handlers/webhook.go:20-112 | the handler replies, publishes, mails and changes the tables exactly as WebhookSpec says |
| Saga.GrpcCartIsActiveCart | cart-service/handlers/grpc-cart-handler.go:30-48 | the gRPC answer for a user, read back by the order service, is that user's active cart lines in order with their product and quantity |
| Saga.PricePurchasable | order-service/handlers/orders-handler-v2.go:56-82 | cart lines whose products are known, in stock and priced all get details and all pass the validity check |
| Saga.CartReadOverGrpc | order-service/handlers/orders-handler-v2.go:47-61 | a purchasable active cart read over gRPC and priced gives one valid item per cart line, in order, with its product and quantity |
| Saga.SettlePendingOrder | order-service/handlers/webhook.go:38-103 | the intent carrying checkout's metadata marks the order paid with the payment id, answers 200, mails, and publishes one event per item |
| Saga.CheckoutV2Succeeds | order-service/handlers/orders-handler-v2.go:23-135 | on a cart of valid items CheckoutV2 answers the session URL, sends the metadata with the manifest, and records the pending order |
| Saga.CheckoutThenSettle | order-service/handlers/orders-handler-v2.go:73-134 | end to end: the cart becomes a pending order, and its payment marks it paid and announces every cart line in cart order |

## Left out

- Logging (`slog`, `fmt.Printf`, `log`) is left out. It has no effect on state or responses.
- Row locks (`FOR UPDATE`) and concurrent requests are left out. Each call runs atomically, one after another. The one-active-cart guarantee of `CartStore.AddToCartPreservesConsistent` holds only under that assumption: `FOR UPDATE` (cart-service/internal/cart/cart.go:26-31) locks no row while the user has no active cart, so two concurrent first adds can both take the no-rows branch (cart.go:36-43) and both insert an active cart, and no uniqueness constraint on the cart table prevents it.
- Response bodies are modelled by their decoding. An active cart with no lines answers `ItemsBody([])`, where the source sends `{"items": null}` because its `items` slice stays nil (cart-service/internal/cart/cart.go:108, cart-service/handlers/cart.go:127); a JSON consumer decodes both as an empty list.
- The webhook's fan-out goroutine runs as a sequential loop. Its published messages are an output of the call, produced before the update.
- `time.Now()` is one `now` parameter per call. The webhook's per-event `time.Now()` becomes that same value. Database `NOW()` timestamps of cart rows are not modelled.
- `uuid.NewString()` values are parameters: the order id and a function from item index to item id.
- HTTP, Consul, the user, cart and product services, Stripe's `session.New`, Kafka's `ProduceMessage` and `sendOrderConfirmationEmail` (SMTP) are not executed. Their outcomes are inputs, and the mail is recorded only as "sent for order id".
- Fixed Stripe parameters are left out: SubmitType, currency, billing-address collection, mode and the redirect URLs. The Stripe key is only checked for being non-empty.
- JSON is represented by its decoding:
  - the manifest's marshal-then-unmarshal is assumed exact;
  - the checkout manifest's `json.Marshal` (order-service/handlers/orders-handler.go:111-116, orders-handler-v2.go:93-98) is assumed to succeed, since it marshals only strings and integers, so its 500 "Failed to prepare line items" branch is left out;
  - only the webhook's `json.Marshal` of an `OrderPaidEvent` folds into the Kafka failure index;
  - error texts of decoding errors are not modelled, only that a 400 is sent;
  - quantities beyond 2^53, which lose precision as float64, are not modelled.
- The 65536-byte body limit of the webhook counts as a failed bind.
- Webhook.HandleWebhook: a manifest entry without a string `product_id` or a numeric `quantity` fails a type assertion inside the fan-out goroutine. That panic is outside the router's recovery middleware, so it ends the whole order-service process. The model requires a well-typed manifest instead (`ManifestWellTyped`). The requirement covers every entry, including entries after the first Kafka failure, which the source never reaches.
- The order in which SQL returns rows is unspecified. The model reads `cart_items` in table order and returns the last matching row where the source takes whichever row the database gives first. With the invariants (one active cart per user, one line per product) only one row can match.
- CartStore.AddToCartEffect: Go `int` overflow of `existing + quantity` is not modelled. The int64 wrap of the order item total is modelled (`GoInt.Int64`).
- The `withTx` rollback quirk is left out. In both stores it tests the body's error instead of the rollback's, which changes only the error message, so the model does a plain rollback. Error messages are reduced to error kinds.
- A failed settlement is shown by the missing confirmation mail and the unchanged tables. The reply carries no sign of it: after a failed `UpdateOrder` the webhook returns without writing, and gin then sends its pending status, a bare 200, the same as `c.Status(http.StatusOK)` on success. Stripe therefore does not redeliver a failed settlement.
- A succeeded-payment event without a `data` object panics on the request goroutine (its data pointer is nil), and gin's recovery middleware answers a bare 500 (`Webhook.WebhookPanicsWithoutData`). This rests on stripe-go's `Event.Data` being a pointer; stripe-go is not part of this model.
- OrderStore.CreateOrderBody: inserting an order id that already exists fails, which assumes a unique key on `orders.id` (a uuid string). The `ID int64` field that order-service/internal/orders/models.go:6-15 comments as auto-incrementing does not describe this schema. Item ids from `itemIds` are not checked for uniqueness, since the table is modelled as a sequence without a key.
- The code does not implement, and the model therefore does not assert:
  - idempotent settlement (a redelivery writes the update again);
  - pending-only status transitions;
  - marking the cart `converted` after checkout;
  - an order total equal to the sum of the item totals (the total is Stripe's `AmountTotal`).
- Only `CheckoutV2` is routed by the order service (order-service/handlers/handlers.go:61). `Checkout` is modelled too, because the two share every step after the cart fetch (`CompleteCheckout`).
- The order service's protobuf cart types are taken to be those of the cart service, since both come from the same proto definition.
- The value of `kafka.TopicOrderPaid` is defined in order-service/internal/stores/kafka, which is not part of this model. It is the constant `TopicOrderPaid`.
