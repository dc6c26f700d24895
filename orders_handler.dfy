/** The order service's checkout handler: it gathers the caller's Stripe
    customer, cart and product details, validates every item, opens a
    Stripe checkout session whose payment metadata carries the order id
    and a product manifest, and only then records a pending order.
    Every collaborator's answer is an input. */
module OrdersHandler {
  import opened Wrappers
  import opened Transactions
  import opened Http
  import opened PaymentMetadata
  import OrderStore

  /** A cart line as the cart service reports it. */
  datatype CartItem = CartItem(productId: string, quantity: int)

  /** The product service's answer for one product. */
  datatype ProductServiceResponse = ProductServiceResponse(productId: string, name: string, price: int, stock: int, priceId: string)

  /** The user service's answer: the caller's Stripe customer id. */
  datatype UserServiceResponse = UserServiceResponse(stripeCustomerId: string)

  /** One Stripe line item: a Stripe price id and a quantity. */
  datatype LineItem = LineItem(price: string, quantity: int)

  /** The parameters of the checkout session the handler asks Stripe for,
      as far as they depend on the request (currency, mode and redirect
      URLs are fixed). */
  datatype SessionParams = SessionParams(customer: string, lineItems: seq<LineItem>, metadata: Metadata)

  /** The session Stripe creates. */
  datatype CheckoutSession = CheckoutSession(url: string, amountTotal: int)

  /** The JSON bodies Checkout answers with: `{"error": 401}`,
      `{"error": "…"}` or `{"checkout_session_url": …}`. */
  datatype CheckoutBody = ErrorCode(code: int) | ErrorText(error: string) | SessionUrl(url: string)

  /** What the handler's collaborators answer during one request:
      whether a Consul client is configured; the user service's answer
      (None when discovery, the request or decoding fails); whether the
      product service is discovered; the product service's answer per
      product id (a product it does not answer for is absent); the Stripe
      key from the environment; the order id generated; Stripe's session
      (None when Stripe refuses); the clock; the ids generated for order
      items; and the failing database statement, if any. */
  datatype Collaborators = Collaborators(
    consulClient: bool,
    customer: Option<UserServiceResponse>,
    productService: bool,
    catalog: map<string, ProductServiceResponse>,
    stripeKey: string,
    orderId: string,
    session: Option<CheckoutSession>,
    now: int,
    itemIds: nat -> string,
    dbFault: OrderStore.CreateFault)

  /** A handled checkout request: the response, the session parameters
      sent to Stripe (None when the handler stopped before), and the
      order tables after it. */
  datatype CheckoutRun = CheckoutRun(response: Response<CheckoutBody>, sent: Option<SessionParams>, after: OrderStore.OrderTables)

  /** The Stripe line items and the product manifest built from the items. */
  datatype CheckoutLines = CheckoutLines(lineItems: seq<LineItem>, manifest: seq<JsonObject>)

  /** A cart line completed with the product service's price and stock. */
  function Detail(item: CartItem, product: ProductServiceResponse): OrderStore.DetailedCartItem {
    OrderStore.DetailedCartItem(item.productId, item.quantity, product.price, product.stock, product.priceId)
  }

  /** fetchProductDetails' loop: one detailed item per cart line, in cart
      order, or nothing at all once one lookup fails. */
  function Details(items: seq<CartItem>, catalog: map<string, ProductServiceResponse>): (r: Option<seq<OrderStore.DetailedCartItem>>)
    ensures r.Some? <==> forall i :: 0 <= i < |items| ==> items[i].productId in catalog
    ensures r.Some? ==> |r.value| == |items|
    ensures r.Some? ==> forall i :: 0 <= i < |items| ==> r.value[i] == Detail(items[i], catalog[items[i].productId])
  {
    if |items| == 0 then Some([])
    else
      var last := items[|items| - 1];
      match Details(items[..|items| - 1], catalog)
      case None => None
      case Some(init) => if last.productId in catalog then Some(init + [Detail(last, catalog[last.productId])]) else None
  }

  /** An item may be paid for: there is enough stock and a Stripe price. */
  predicate ValidItem(item: OrderStore.DetailedCartItem) {
    item.stock >= item.quantity && item.priceId != ""
  }

  predicate AllValid(items: seq<OrderStore.DetailedCartItem>) {
    forall i :: 0 <= i < |items| ==> ValidItem(items[i])
  }

  /** The Stripe line items, one per item, in order. */
  function LineItemsOf(items: seq<OrderStore.DetailedCartItem>): (r: seq<LineItem>)
    ensures |r| == |items|
    ensures forall i :: 0 <= i < |items| ==> r[i] == LineItem(items[i].priceId, items[i].quantity)
  {
    if |items| == 0 then []
    else LineItemsOf(items[..|items| - 1]) + [LineItem(items[|items| - 1].priceId, items[|items| - 1].quantity)]
  }

  /** The product manifest, one `{product_id, quantity}` entry per item, in order. */
  function ManifestOf(items: seq<OrderStore.DetailedCartItem>): (r: seq<JsonObject>)
    ensures |r| == |items|
    ensures forall i :: 0 <= i < |items| ==> r[i] == ManifestEntry(items[i].productId, items[i].quantity)
  {
    if |items| == 0 then []
    else ManifestOf(items[..|items| - 1]) + [ManifestEntry(items[|items| - 1].productId, items[|items| - 1].quantity)]
  }

  /** The manifest reads back as the items' products and quantities. */
  lemma ManifestDescribesItems(items: seq<OrderStore.DetailedCartItem>)
    ensures AllWellTyped(ManifestOf(items))
    ensures forall i :: 0 <= i < |items| ==>
              EntryProductId(ManifestOf(items)[i]) == items[i].productId &&
              EntryQuantity(ManifestOf(items)[i]) == items[i].quantity
  {
    forall i | 0 <= i < |items|
      ensures WellTyped(ManifestOf(items)[i])
      ensures EntryProductId(ManifestOf(items)[i]) == items[i].productId
      ensures EntryQuantity(ManifestOf(items)[i]) == items[i].quantity
    {
      ManifestEntryRoundTrip(items[i].productId, items[i].quantity);
    }
  }

  function Fail500(t: OrderStore.OrderTables, error: string): CheckoutRun {
    CheckoutRun(Response(StatusInternalServerError, ErrorText(error)), None, t)
  }

  /** The steps both checkout handlers share once the product details are
      fetched: reject an empty list, read the Stripe key, validate every
      item, open the session, then create the order with Stripe's total. */
  function CheckoutFromDetails(t: OrderStore.OrderTables, subject: string, customerId: string,
                               details: Option<seq<OrderStore.DetailedCartItem>>, c: Collaborators): CheckoutRun
  {
    if details.None? || |details.value| == 0 then Fail500(t, "Failed to fetch product details")
    else if c.stripeKey == "" then Fail500(t, "Stripe secret key not found")
    else
      var items := details.value;
      if !AllValid(items) then CheckoutRun(Response(StatusBadRequest, ErrorText("Invalid product in cart")), None, t)
      else
        var params := SessionParams(customerId, LineItemsOf(items), Metadata(c.orderId, subject, Objects(ManifestOf(items))));
        match c.session
        case None => CheckoutRun(Response(StatusInternalServerError, ErrorText("Failed to create Stripe checkout session")), Some(params), t)
        case Some(s) =>
          var db := OrderStore.CreateOrderEffect(t, c.orderId, subject, items, s.amountTotal, c.now, c.itemIds, c.dbFault);
          if db.outcome.Fail? then CheckoutRun(Response(StatusInternalServerError, ErrorText("Failed to create order")), Some(params), db.after)
          else CheckoutRun(Response(StatusOK, SessionUrl(s.url)), Some(params), db.after)
  }

  /** The whole Checkout request; `cart` is the cart service's answer
      (None when discovery, the request or decoding fails). */
  function CheckoutSpec(t: OrderStore.OrderTables, claims: Option<Claims>, c: Collaborators, cart: Option<seq<CartItem>>): CheckoutRun
  {
    if claims.None? then CheckoutRun(Response(StatusUnauthorized, ErrorCode(StatusUnauthorized)), None, t)
    else if !c.consulClient then Fail500(t, "consul client is not initialized")
    else if c.customer.None? || c.customer.value.stripeCustomerId == "" then Fail500(t, "Failed to fetch Stripe customer ID")
    else if cart.None? then Fail500(t, "Failed to fetch cart items")
    else
      var details := if c.productService then Details(cart.value, c.catalog) else None;
      CheckoutFromDetails(t, claims.value.subject, c.customer.value.stripeCustomerId, details, c)
  }

  // ---------------------------------------------------------------------
  // Lemmas about the shared steps
  // ---------------------------------------------------------------------

  /** Only a 200 leaves anything behind; every other answer leaves the
      order tables as they were. A 200 answers the session's URL and
      records a pending order under the session's order id, for the
      caller, with Stripe's total, followed by one item row per item. */
  lemma CheckoutFromDetailsOutcome(t: OrderStore.OrderTables, subject: string, customerId: string,
                                   details: Option<seq<OrderStore.DetailedCartItem>>, c: Collaborators)
    ensures var run := CheckoutFromDetails(t, subject, customerId, details, c);
            && (run.response.status != StatusOK ==> run.after == t)
            && (run.response.status == StatusOK ==>
                  && details.Some? && c.session.Some?
                  && run.response.body == SessionUrl(c.session.value.url)
                  && c.orderId !in t.orders
                  && run.after.orders == t.orders[c.orderId := OrderStore.OrderRow(subject, OrderStore.StatusPending, None,
                                                                                     c.session.value.amountTotal, c.now, c.now)]
                  && run.after.items == t.items + OrderStore.ItemRows(c.orderId, details.value, c.itemIds, c.now))
  {
    var run := CheckoutFromDetails(t, subject, customerId, details, c);
    if run.response.status == StatusOK {
      var items := details.value;
      var s := c.session.value;
      OrderStore.CreateOrderOutcome(t, c.orderId, subject, items, s.amountTotal, c.now, c.itemIds, c.dbFault);
    }
  }

  /** A session is requested only for a non-empty list of valid items,
      with the caller's Stripe customer, one line item per item and
      metadata naming the order id, the caller and the manifest. */
  lemma CheckoutFromDetailsSession(t: OrderStore.OrderTables, subject: string, customerId: string,
                                   details: Option<seq<OrderStore.DetailedCartItem>>, c: Collaborators)
    ensures var run := CheckoutFromDetails(t, subject, customerId, details, c);
            run.sent.Some? ==>
              && details.Some? && |details.value| > 0 && AllValid(details.value) && c.stripeKey != ""
              && run.sent.value == SessionParams(customerId, LineItemsOf(details.value),
                                                 Metadata(c.orderId, subject, Objects(ManifestOf(details.value))))
  {
  }

  /** An order is created only after Stripe opened the session, under the
      id sent in the session's metadata and with the session's total. */
  lemma CheckoutFromDetailsOrderAfterSession(t: OrderStore.OrderTables, subject: string, customerId: string,
                                             details: Option<seq<OrderStore.DetailedCartItem>>, c: Collaborators)
    ensures var run := CheckoutFromDetails(t, subject, customerId, details, c);
            run.after != t ==>
              && run.sent.Some? && c.session.Some?
              && run.sent.value.metadata.orderId == c.orderId
              && run.after == OrderStore.CreateOrderEffect(t, c.orderId, subject, details.value, c.session.value.amountTotal,
                                                           c.now, c.itemIds, c.dbFault).after
  {
  }

  /** The outcome and the session facts together, in the form the
      handlers' own outcome lemmas state them. */
  lemma CheckoutFromDetailsSummary(t: OrderStore.OrderTables, subject: string, customerId: string,
                                   details: Option<seq<OrderStore.DetailedCartItem>>, c: Collaborators)
    ensures var run := CheckoutFromDetails(t, subject, customerId, details, c);
            && (run.response.status != StatusOK ==> run.after == t)
            && (run.sent.Some? ==>
                  && details.Some? && |details.value| > 0 && AllValid(details.value)
                  && run.sent.value == SessionParams(customerId, LineItemsOf(details.value),
                                                     Metadata(c.orderId, subject, Objects(ManifestOf(details.value)))))
            && (run.response.status == StatusOK ==>
                  && run.sent.Some? && c.session.Some? && c.orderId in run.after.orders
                  && run.after.orders[c.orderId] == OrderStore.OrderRow(subject, OrderStore.StatusPending, None,
                                                                         c.session.value.amountTotal, c.now, c.now))
  {
    CheckoutFromDetailsOutcome(t, subject, customerId, details, c);
    CheckoutFromDetailsSession(t, subject, customerId, details, c);
  }

  /** An empty product list aborts before Stripe with nothing recorded. */
  lemma CheckoutFromDetailsEmpty(t: OrderStore.OrderTables, subject: string, customerId: string, c: Collaborators)
    ensures CheckoutFromDetails(t, subject, customerId, Some([]), c) == Fail500(t, "Failed to fetch product details")
  {
  }

  /** With a Stripe key, one item short of stock or without a Stripe price
      makes the answer 400, before Stripe and with nothing recorded. */
  lemma CheckoutFromDetailsInvalidItem(t: OrderStore.OrderTables, subject: string, customerId: string,
                                       items: seq<OrderStore.DetailedCartItem>, c: Collaborators, k: nat)
    requires c.stripeKey != ""
    requires k < |items| && (items[k].stock < items[k].quantity || items[k].priceId == "")
    ensures CheckoutFromDetails(t, subject, customerId, Some(items), c) ==
            CheckoutRun(Response(StatusBadRequest, ErrorText("Invalid product in cart")), None, t)
  {
  }

  // ---------------------------------------------------------------------
  // Lemmas about Checkout
  // ---------------------------------------------------------------------

  /** Without claims the answer is 401 and no collaborator's answer matters. */
  lemma CheckoutUnauthorized(t: OrderStore.OrderTables, c: Collaborators, cart: Option<seq<CartItem>>)
    ensures CheckoutSpec(t, None, c, cart) == CheckoutRun(Response(StatusUnauthorized, ErrorCode(StatusUnauthorized)), None, t)
  {
  }

  /** A failed customer lookup, or an empty customer id, aborts with 500,
      before the cart is read, with no session and no order. */
  lemma CheckoutNeedsCustomer(t: OrderStore.OrderTables, claims: Claims, c: Collaborators, cart: Option<seq<CartItem>>)
    requires c.consulClient
    requires c.customer.None? || c.customer.value.stripeCustomerId == ""
    ensures CheckoutSpec(t, Some(claims), c, cart) == Fail500(t, "Failed to fetch Stripe customer ID")
  {
  }

  /** A product the product service does not answer for fails the whole
      checkout with 500, with no session and no order. */
  lemma CheckoutUnknownProduct(t: OrderStore.OrderTables, claims: Claims, c: Collaborators, cart: seq<CartItem>, k: nat)
    requires c.consulClient && c.customer.Some? && c.customer.value.stripeCustomerId != ""
    requires k < |cart| && cart[k].productId !in c.catalog
    ensures CheckoutSpec(t, Some(claims), c, Some(cart)) == Fail500(t, "Failed to fetch product details")
  {
  }

  /** Checkout as a whole: only a 200 leaves an order behind, and a
      session is requested only for the caller's fully priced, valid cart,
      with the order id the order is then recorded under. */
  lemma CheckoutOutcome(t: OrderStore.OrderTables, claims: Option<Claims>, c: Collaborators, cart: Option<seq<CartItem>>)
    ensures var run := CheckoutSpec(t, claims, c, cart);
            && (run.response.status != StatusOK ==> run.after == t)
            && (run.sent.Some? ==>
                  && claims.Some? && cart.Some? && c.productService && c.customer.Some?
                  && var details := Details(cart.value, c.catalog);
                     && details.Some? && |details.value| == |cart.value| > 0 && AllValid(details.value)
                     && run.sent.value == SessionParams(c.customer.value.stripeCustomerId, LineItemsOf(details.value),
                                                        Metadata(c.orderId, claims.value.subject, Objects(ManifestOf(details.value)))))
            && (run.response.status == StatusOK ==>
                  && run.sent.Some? && c.session.Some? && c.orderId in run.after.orders
                  && run.after.orders[c.orderId] == OrderStore.OrderRow(claims.value.subject, OrderStore.StatusPending, None,
                                                                         c.session.value.amountTotal, c.now, c.now))
  {
    if claims.Some? && c.consulClient && c.customer.Some? && c.customer.value.stripeCustomerId != "" && cart.Some? {
      var details := if c.productService then Details(cart.value, c.catalog) else None;
      assert CheckoutSpec(t, claims, c, cart) == CheckoutFromDetails(t, claims.value.subject, c.customer.value.stripeCustomerId, details, c);
      CheckoutFromDetailsSummary(t, claims.value.subject, c.customer.value.stripeCustomerId, details, c);
    }
  }

  // ---------------------------------------------------------------------
  // The handler
  // ---------------------------------------------------------------------

  /** fetchProductDetails: discovers the product service, then asks it
      about each cart line in turn. */
  method FetchProductDetails(items: seq<CartItem>, productService: bool, catalog: map<string, ProductServiceResponse>)
    returns (r: Option<seq<OrderStore.DetailedCartItem>>)
    ensures r == if productService then Details(items, catalog) else None
  {
    if !productService {
      return None;
    }
    var detailed := [];
    var i := 0;
    while i < |items|
      invariant 0 <= i <= |items|
      invariant Details(items[..i], catalog) == Some(detailed)
    {
      if items[i].productId !in catalog {
        return None;
      }
      assert items[..i + 1][..i] == items[..i];
      detailed := detailed + [Detail(items[i], catalog[items[i].productId])];
      i := i + 1;
    }
    assert items[..i] == items;
    r := Some(detailed);
  }

  /** The validation loop: stops at the first invalid item, otherwise
      appends one line item and one manifest entry per item. */
  method BuildCheckoutLines(items: seq<OrderStore.DetailedCartItem>) returns (r: Option<CheckoutLines>)
    ensures r.Some? <==> AllValid(items)
    ensures r.Some? ==> r.value == CheckoutLines(LineItemsOf(items), ManifestOf(items))
  {
    var lineItems := [];
    var manifest := [];
    var i := 0;
    while i < |items|
      invariant 0 <= i <= |items|
      invariant AllValid(items[..i])
      invariant lineItems == LineItemsOf(items[..i]) && manifest == ManifestOf(items[..i])
    {
      var item := items[i];
      if item.stock < item.quantity || item.priceId == "" {
        return None;
      }
      assert items[..i + 1][..i] == items[..i];
      lineItems := lineItems + [LineItem(item.priceId, item.quantity)];
      manifest := manifest + [ManifestEntry(item.productId, item.quantity)];
      i := i + 1;
    }
    assert items[..i] == items;
    r := Some(CheckoutLines(lineItems, manifest));
  }

  /** The shared tail of both handlers, over the order store. */
  method CompleteCheckout(store: OrderStore.Store, subject: string, customerId: string,
                          details: Option<seq<OrderStore.DetailedCartItem>>, c: Collaborators)
    returns (response: Response<CheckoutBody>, sent: Option<SessionParams>)
    requires store.Valid()
    modifies store
    ensures store.Valid()
    ensures CheckoutRun(response, sent, store.Tables()) == CheckoutFromDetails(old(store.Tables()), subject, customerId, details, c)
  {
    sent := None;
    if details.None? || |details.value| == 0 {
      response := Response(StatusInternalServerError, ErrorText("Failed to fetch product details"));
      return;
    }
    if c.stripeKey == "" {
      response := Response(StatusInternalServerError, ErrorText("Stripe secret key not found"));
      return;
    }
    var orderId := c.orderId;
    var lines := BuildCheckoutLines(details.value);
    if lines.None? {
      response := Response(StatusBadRequest, ErrorText("Invalid product in cart"));
      return;
    }
    sent := Some(SessionParams(customerId, lines.value.lineItems, Metadata(orderId, subject, Objects(lines.value.manifest))));
    if c.session.None? {
      response := Response(StatusInternalServerError, ErrorText("Failed to create Stripe checkout session"));
      return;
    }
    var session := c.session.value;
    var created := store.CreateOrder(orderId, subject, details.value, session.amountTotal, c.now, c.itemIds, c.dbFault);
    if created.Fail? {
      response := Response(StatusInternalServerError, ErrorText("Failed to create order"));
      return;
    }
    response := Response(StatusOK, SessionUrl(session.url));
  }

  /** Checkout over the order store. */
  method Checkout(store: OrderStore.Store, claims: Option<Claims>, c: Collaborators, cart: Option<seq<CartItem>>)
    returns (response: Response<CheckoutBody>, sent: Option<SessionParams>)
    requires store.Valid()
    modifies store
    ensures store.Valid()
    ensures CheckoutRun(response, sent, store.Tables()) == CheckoutSpec(old(store.Tables()), claims, c, cart)
  {
    sent := None;
    if claims.None? {
      response := Response(StatusUnauthorized, ErrorCode(StatusUnauthorized));
      return;
    }
    if !c.consulClient {
      response := Response(StatusInternalServerError, ErrorText("consul client is not initialized"));
      return;
    }
    if c.customer.None? || c.customer.value.stripeCustomerId == "" {
      response := Response(StatusInternalServerError, ErrorText("Failed to fetch Stripe customer ID"));
      return;
    }
    if cart.None? {
      response := Response(StatusInternalServerError, ErrorText("Failed to fetch cart items"));
      return;
    }
    var details := FetchProductDetails(cart.value, c.productService, c.catalog);
    response, sent := CompleteCheckout(store, claims.value.subject, c.customer.value.stripeCustomerId, details, c);
  }
}
