/** The second checkout handler, the one the order service routes: the
    same steps as Checkout, except that the cart is read over gRPC from
    the cart service for the caller's subject. */
module OrdersHandlerV2 {
  import opened Wrappers
  import opened Http
  import OrderStore
  import GrpcCart
  import opened OrdersHandler

  /** The cart service's GetCartDetails endpoint as the order service's
      gRPC client sees it: a request gets a response or an error. */
  type CartService = GrpcCart.GetCartDetailsRequest -> Result<GrpcCart.GetCartDetailsResponse, GrpcCart.GrpcError>

  /** The protobuf cart lines as cart items, one by one, in order. */
  function CartItemsOf(pbItems: seq<GrpcCart.PbCartItem>): (r: seq<CartItem>)
    ensures |r| == |pbItems|
    ensures forall i :: 0 <= i < |pbItems| ==> r[i] == CartItem(pbItems[i].productId, pbItems[i].quantity)
  {
    if |pbItems| == 0 then []
    else CartItemsOf(pbItems[..|pbItems| - 1]) + [CartItem(pbItems[|pbItems| - 1].productId, pbItems[|pbItems| - 1].quantity)]
  }

  /** Reading the cart service's lines back through its protobuf copy
      gives the store's (product, quantity) pairs unchanged. */
  lemma CartItemsOfStoreItems(items: seq<GrpcCart.CartStore.CartItem>)
    ensures var r := CartItemsOf(GrpcCart.ToPbItems(items));
            && |r| == |items|
            && forall i :: 0 <= i < |items| ==> r[i].productId == items[i].productId && r[i].quantity == items[i].quantity
  {
  }

  /** The whole CheckoutV2 request against a cart service. */
  function CheckoutV2Spec(t: OrderStore.OrderTables, claims: Option<Claims>, c: Collaborators, cartService: CartService): CheckoutRun
  {
    if claims.None? then CheckoutRun(Response(StatusUnauthorized, ErrorCode(StatusUnauthorized)), None, t)
    else if !c.consulClient then Fail500(t, "consul client is not initialized")
    else if c.customer.None? || c.customer.value.stripeCustomerId == "" then Fail500(t, "Failed to fetch Stripe customer ID")
    else match cartService(GrpcCart.GetCartDetailsRequest(claims.value.subject))
      case Failure(_) => Fail500(t, "Failed to fetch cart items")
      case Success(resp) =>
        var cart := CartItemsOf(resp.cartItems);
        var details := if c.productService then Details(cart, c.catalog) else None;
        CheckoutFromDetails(t, claims.value.subject, c.customer.value.stripeCustomerId, details, c)
  }

  /** Without claims the answer is 401 and the cart service is never asked. */
  lemma CheckoutV2Unauthorized(t: OrderStore.OrderTables, c: Collaborators, cartService: CartService)
    ensures CheckoutV2Spec(t, None, c, cartService) == CheckoutRun(Response(StatusUnauthorized, ErrorCode(StatusUnauthorized)), None, t)
  {
  }

  /** The cart is the caller's: two cart services that answer the same for
      the caller's subject give the same outcome, and a failed fetch
      aborts with 500, no session and no order. */
  lemma CheckoutV2ReadsCallersCart(t: OrderStore.OrderTables, claims: Claims, c: Collaborators, s1: CartService, s2: CartService)
    requires s1(GrpcCart.GetCartDetailsRequest(claims.subject)) == s2(GrpcCart.GetCartDetailsRequest(claims.subject))
    ensures CheckoutV2Spec(t, Some(claims), c, s1) == CheckoutV2Spec(t, Some(claims), c, s2)
    ensures c.consulClient && c.customer.Some? && c.customer.value.stripeCustomerId != "" &&
            s1(GrpcCart.GetCartDetailsRequest(claims.subject)).Failure? ==>
              CheckoutV2Spec(t, Some(claims), c, s1) == Fail500(t, "Failed to fetch cart items")
  {
  }

  /** An empty cart aborts with 500 before Stripe, with nothing recorded. */
  lemma CheckoutV2EmptyCart(t: OrderStore.OrderTables, claims: Claims, c: Collaborators, cartService: CartService)
    requires c.consulClient && c.customer.Some? && c.customer.value.stripeCustomerId != ""
    requires cartService(GrpcCart.GetCartDetailsRequest(claims.subject)) == Success(GrpcCart.GetCartDetailsResponse([]))
    ensures CheckoutV2Spec(t, Some(claims), c, cartService) == Fail500(t, "Failed to fetch product details")
  {
  }

  /** With a Stripe key, a cart line short of stock or without a Stripe
      price makes the answer 400, before Stripe, with nothing recorded. */
  lemma CheckoutV2InvalidItem(t: OrderStore.OrderTables, claims: Claims, c: Collaborators, cartService: CartService,
                              resp: GrpcCart.GetCartDetailsResponse, k: nat)
    requires c.consulClient && c.customer.Some? && c.customer.value.stripeCustomerId != "" && c.stripeKey != ""
    requires c.productService
    requires cartService(GrpcCart.GetCartDetailsRequest(claims.subject)) == Success(resp)
    requires Details(CartItemsOf(resp.cartItems), c.catalog).Some?
    requires var items := Details(CartItemsOf(resp.cartItems), c.catalog).value;
             k < |items| && !ValidItem(items[k])
    ensures CheckoutV2Spec(t, Some(claims), c, cartService) ==
            CheckoutRun(Response(StatusBadRequest, ErrorText("Invalid product in cart")), None, t)
  {
    var items := Details(CartItemsOf(resp.cartItems), c.catalog).value;
    CheckoutFromDetailsInvalidItem(t, claims.subject, c.customer.value.stripeCustomerId, items, c, k);
  }

  /** CheckoutV2 as a whole: only a 200 leaves an order behind; a session
      is requested only for the caller's cart as the cart service returned
      it, fully priced and valid, with one manifest entry per line and the
      order id under which a 200 records the pending order with Stripe's
      total. */
  lemma CheckoutV2Outcome(t: OrderStore.OrderTables, claims: Option<Claims>, c: Collaborators, cartService: CartService)
    ensures var run := CheckoutV2Spec(t, claims, c, cartService);
            && (run.response.status != StatusOK ==> run.after == t)
            && (run.sent.Some? ==>
                  && claims.Some? && c.productService && c.customer.Some?
                  && var fetched := cartService(GrpcCart.GetCartDetailsRequest(claims.value.subject));
                     && fetched.Success?
                     && var details := Details(CartItemsOf(fetched.value.cartItems), c.catalog);
                        && details.Some? && |details.value| == |fetched.value.cartItems| > 0 && AllValid(details.value)
                        && run.sent.value == SessionParams(c.customer.value.stripeCustomerId, LineItemsOf(details.value),
                                                           PaymentMetadata.Metadata(c.orderId, claims.value.subject,
                                                                                    PaymentMetadata.Objects(ManifestOf(details.value)))))
            && (run.response.status == StatusOK ==>
                  && run.sent.Some? && c.session.Some? && c.orderId in run.after.orders
                  && run.after.orders[c.orderId] == OrderStore.OrderRow(claims.value.subject, OrderStore.StatusPending, None,
                                                                         c.session.value.amountTotal, c.now, c.now))
  {
    if claims.Some? && c.consulClient && c.customer.Some? && c.customer.value.stripeCustomerId != "" {
      var fetched := cartService(GrpcCart.GetCartDetailsRequest(claims.value.subject));
      if fetched.Success? {
        var details := if c.productService then Details(CartItemsOf(fetched.value.cartItems), c.catalog) else None;
        CheckoutV2FromDetails(t, claims.value, c, cartService, fetched.value);
        CheckoutFromDetailsSummary(t, claims.value.subject, c.customer.value.stripeCustomerId, details, c);
      }
    }
  }

  /** Once the caller's cart is fetched, CheckoutV2 is the shared checkout
      tail on that cart priced by the product service. */
  lemma CheckoutV2FromDetails(t: OrderStore.OrderTables, claims: Claims, c: Collaborators, cartService: CartService,
                              resp: GrpcCart.GetCartDetailsResponse)
    requires c.consulClient && c.customer.Some? && c.customer.value.stripeCustomerId != ""
    requires cartService(GrpcCart.GetCartDetailsRequest(claims.subject)) == Success(resp)
    ensures var details := if c.productService then Details(CartItemsOf(resp.cartItems), c.catalog) else None;
            CheckoutV2Spec(t, Some(claims), c, cartService) ==
              CheckoutFromDetails(t, claims.subject, c.customer.value.stripeCustomerId, details, c)
  {
  }

  /** ConvertResponseToItems: appends one cart item per protobuf line; it
      never fails. */
  method ConvertResponseToItems(resp: GrpcCart.GetCartDetailsResponse) returns (r: Result<seq<CartItem>, string>)
    ensures r == Success(CartItemsOf(resp.cartItems))
  {
    var items := [];
    var i := 0;
    while i < |resp.cartItems|
      invariant 0 <= i <= |resp.cartItems|
      invariant items == CartItemsOf(resp.cartItems[..i])
    {
      assert resp.cartItems[..i + 1][..i] == resp.cartItems[..i];
      items := items + [CartItem(resp.cartItems[i].productId, resp.cartItems[i].quantity)];
      i := i + 1;
    }
    assert resp.cartItems[..i] == resp.cartItems;
    r := Success(items);
  }

  /** fetchCartItems: asks the cart service for `userId`'s cart. */
  method FetchCartItems(cartService: CartService, userId: string) returns (r: Option<seq<CartItem>>)
    ensures var answer := cartService(GrpcCart.GetCartDetailsRequest(userId));
            && (r.Some? <==> answer.Success?)
            && (r.Some? ==> r.value == CartItemsOf(answer.value.cartItems))
  {
    var answer := cartService(GrpcCart.GetCartDetailsRequest(userId));
    if answer.Failure? {
      return None;
    }
    var items := ConvertResponseToItems(answer.value);
    if items.Failure? {
      return None;
    }
    r := Some(items.value);
  }

  /** CheckoutV2 over the order store. */
  method CheckoutV2(store: OrderStore.Store, claims: Option<Claims>, c: Collaborators, cartService: CartService)
    returns (response: Response<CheckoutBody>, sent: Option<SessionParams>)
    requires store.Valid()
    modifies store
    ensures store.Valid()
    ensures CheckoutRun(response, sent, store.Tables()) == CheckoutV2Spec(old(store.Tables()), claims, c, cartService)
  {
    sent := None;
    if claims.None? {
      response := Response(StatusUnauthorized, ErrorCode(StatusUnauthorized));
      return;
    }
    if !c.consulClient {
      response := Response(StatusInternalServerError, ErrorText("consul client is not initialized"));
      return;
    }
    if c.customer.None? || c.customer.value.stripeCustomerId == "" {
      response := Response(StatusInternalServerError, ErrorText("Failed to fetch Stripe customer ID"));
      return;
    }
    var cart := FetchCartItems(cartService, claims.value.subject);
    if cart.None? {
      response := Response(StatusInternalServerError, ErrorText("Failed to fetch cart items"));
      return;
    }
    var details := FetchProductDetails(cart.value, c.productService, c.catalog);
    response, sent := CompleteCheckout(store, claims.value.subject, c.customer.value.stripeCustomerId, details, c);
  }
}
