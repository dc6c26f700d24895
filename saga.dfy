/** The checkout saga end to end: the cart service's active cart, read
    over gRPC by CheckoutV2, becomes a pending order and a payment
    session; the payment's webhook then marks the order paid and announces
    every cart line. */
module Saga {
  import opened Wrappers
  import opened Http
  import CartStore
  import OrderStore
  import GrpcCart
  import PaymentMetadata
  import opened OrdersHandler
  import opened OrdersHandlerV2
  import Webhook

  /** The cart service's gRPC endpoint answering from the cart tables. */
  function CartServiceOf(ct: CartStore.CartTables, fault: CartStore.ReadFault): CartService {
    request => GrpcCart.CartDetails(ct, request, fault)
  }

  /** Every cart line names a product the product service knows, with
      enough stock and a Stripe price. */
  predicate Purchasable(items: seq<CartStore.CartItem>, catalog: map<string, ProductServiceResponse>) {
    forall i :: 0 <= i < |items| ==>
      && items[i].productId in catalog
      && catalog[items[i].productId].stock >= items[i].quantity
      && catalog[items[i].productId].priceId != ""
  }

  /** The cart service's lines, as CheckoutV2 reads them over gRPC, are
      the active cart's (product, quantity) pairs in cart order. */
  lemma GrpcCartIsActiveCart(ct: CartStore.CartTables, u: string)
    requires CartStore.ActiveItems(ct, u, CartStore.NoReadFault).Success?
    ensures var items := CartStore.ActiveItems(ct, u, CartStore.NoReadFault).value;
            var answer := CartServiceOf(ct, CartStore.NoReadFault)(GrpcCart.GetCartDetailsRequest(u));
            && answer.Success?
            && var cart := CartItemsOf(answer.value.cartItems);
               && |cart| == |items|
               && forall i :: 0 <= i < |items| ==> cart[i].productId == items[i].productId && cart[i].quantity == items[i].quantity
  {
    var answer := GrpcCart.CartDetails(ct, GrpcCart.GetCartDetailsRequest(u), CartStore.NoReadFault);
    assert CartServiceOf(ct, CartStore.NoReadFault)(GrpcCart.GetCartDetailsRequest(u)) == answer;
  }

  /** Pricing cart lines that match a purchasable cart gives one valid
      detailed item per line, with the line's product and quantity. */
  lemma PricePurchasable(cart: seq<CartItem>, items: seq<CartStore.CartItem>, catalog: map<string, ProductServiceResponse>)
    requires |cart| == |items| && Purchasable(items, catalog)
    requires forall i :: 0 <= i < |items| ==> cart[i].productId == items[i].productId && cart[i].quantity == items[i].quantity
    ensures var details := Details(cart, catalog);
            && details.Some? && AllValid(details.value)
            && |details.value| == |items|
            && forall i :: 0 <= i < |items| ==>
                 details.value[i].productId == items[i].productId && details.value[i].quantity == items[i].quantity
  {
    assert forall i :: 0 <= i < |cart| ==> cart[i].productId in catalog;
  }

  /** Read over gRPC and priced, a purchasable active cart gives one valid
      detailed item per cart line, in cart order, with its product and
      quantity. */
  lemma CartReadOverGrpc(ct: CartStore.CartTables, u: string, catalog: map<string, ProductServiceResponse>)
    requires CartStore.ActiveItems(ct, u, CartStore.NoReadFault).Success?
    requires Purchasable(CartStore.ActiveItems(ct, u, CartStore.NoReadFault).value, catalog)
    ensures var items := CartStore.ActiveItems(ct, u, CartStore.NoReadFault).value;
            var answer := CartServiceOf(ct, CartStore.NoReadFault)(GrpcCart.GetCartDetailsRequest(u));
            && answer.Success?
            && var details := Details(CartItemsOf(answer.value.cartItems), catalog);
               && details.Some? && AllValid(details.value)
               && |details.value| == |items|
               && forall i :: 0 <= i < |items| ==>
                    details.value[i].productId == items[i].productId && details.value[i].quantity == items[i].quantity
  {
    var items := CartStore.ActiveItems(ct, u, CartStore.NoReadFault).value;
    GrpcCartIsActiveCart(ct, u);
    var answer := CartServiceOf(ct, CartStore.NoReadFault)(GrpcCart.GetCartDetailsRequest(u));
    PricePurchasable(CartItemsOf(answer.value.cartItems), items, catalog);
  }

  /** The succeeded payment intent for a pending order whose metadata is
      the one checkout sends marks that order paid with the payment's id
      and publishes one event per item, in order. */
  lemma SettlePendingOrder(t: OrderStore.OrderTables, orderId: string, u: string, d: seq<OrderStore.DetailedCartItem>,
                           paymentId: string, paidAt: int)
    requires orderId in t.orders && t.orders[orderId].userId == u
    ensures var intent := Webhook.PaymentIntent(paymentId, PaymentMetadata.Metadata(orderId, u, PaymentMetadata.Objects(ManifestOf(d))));
            var request := Some(Webhook.Event(Webhook.PaymentIntentSucceeded, Webhook.IntentJson(intent)));
            && Webhook.ManifestWellTyped(request)
            && var w := Webhook.WebhookSpec(t, request, Webhook.Settlement(None, paidAt, OrderStore.NoUpdateFault));
               && w.reply == Response(StatusOK, Webhook.NoBody)
               && w.confirmationFor == Some(orderId)
               && orderId in w.after.orders
               && w.after.orders[orderId] == t.orders[orderId].(status := OrderStore.StatusPaid, stripeTransactionId := Some(paymentId),
                                                                updatedAt := paidAt)
               && |w.published| == |d|
               && forall i :: 0 <= i < |d| ==>
                    w.published[i] == Webhook.Message(Webhook.TopicOrderPaid, orderId,
                                                      Webhook.OrderPaidEvent(orderId, d[i].productId, d[i].quantity, paidAt))
  {
    ManifestDescribesItems(d);
    var intent := Webhook.PaymentIntent(paymentId, PaymentMetadata.Metadata(orderId, u, PaymentMetadata.Objects(ManifestOf(d))));
    var s := Webhook.Settlement(None, paidAt, OrderStore.NoUpdateFault);
    Webhook.WebhookPublishesManifest(t, intent, s, t, OrderStore.NoUpdateFault);
    Webhook.WebhookSettlesOrder(t, intent, s);
  }

  /** CheckoutV2 on a cart whose items all price and validate answers the
      session URL, sends the caller's metadata with the manifest, and
      records the pending order. */
  lemma CheckoutV2Succeeds(t: OrderStore.OrderTables, u: string, c: Collaborators, service: CartService,
                           resp: GrpcCart.GetCartDetailsResponse, d: seq<OrderStore.DetailedCartItem>)
    requires service(GrpcCart.GetCartDetailsRequest(u)) == Success(resp)
    requires Details(CartItemsOf(resp.cartItems), c.catalog) == Some(d)
    requires |d| > 0 && AllValid(d)
    requires c.consulClient && c.customer.Some? && c.customer.value.stripeCustomerId != ""
    requires c.productService && c.stripeKey != "" && c.session.Some?
    requires c.dbFault == OrderStore.NoCreateFault && c.orderId !in t.orders
    ensures var run := CheckoutV2Spec(t, Some(Claims(u)), c, service);
            && run.response == Response(StatusOK, SessionUrl(c.session.value.url))
            && run.sent == Some(SessionParams(c.customer.value.stripeCustomerId, LineItemsOf(d),
                                              PaymentMetadata.Metadata(c.orderId, u, PaymentMetadata.Objects(ManifestOf(d)))))
            && c.orderId in run.after.orders
            && run.after.orders[c.orderId] == OrderStore.OrderRow(u, OrderStore.StatusPending, None, c.session.value.amountTotal, c.now, c.now)
  {
    var customerId := c.customer.value.stripeCustomerId;
    CheckoutV2FromDetails(t, Claims(u), c, service, resp);
    OrderStore.CreateOrderOutcome(t, c.orderId, u, d, c.session.value.amountTotal, c.now, c.itemIds, c.dbFault);
    CheckoutFromDetailsOutcome(t, u, customerId, Some(d), c);
  }

  /** CheckoutV2 on a non-empty purchasable cart answers the session URL
      and sends the payment metadata; delivering the succeeded payment
      intent that carries this metadata then marks the order paid with the
      payment's id and publishes, in cart order, one event per cart line
      with its product and quantity. */
  lemma CheckoutThenSettle(ct: CartStore.CartTables, u: string, t: OrderStore.OrderTables, c: Collaborators,
                           paymentId: string, paidAt: int)
    requires CartStore.ActiveItems(ct, u, CartStore.NoReadFault).Success?
    requires var items := CartStore.ActiveItems(ct, u, CartStore.NoReadFault).value;
             |items| > 0 && Purchasable(items, c.catalog)
    requires c.consulClient && c.customer.Some? && c.customer.value.stripeCustomerId != ""
    requires c.productService && c.stripeKey != "" && c.session.Some?
    requires c.dbFault == OrderStore.NoCreateFault && c.orderId !in t.orders
    ensures var items := CartStore.ActiveItems(ct, u, CartStore.NoReadFault).value;
            var run := CheckoutV2Spec(t, Some(Claims(u)), c, CartServiceOf(ct, CartStore.NoReadFault));
            && run.response == Response(StatusOK, SessionUrl(c.session.value.url))
            && run.sent.Some?
            && var intent := Webhook.PaymentIntent(paymentId, run.sent.value.metadata);
               var request := Some(Webhook.Event(Webhook.PaymentIntentSucceeded, Webhook.IntentJson(intent)));
               && Webhook.ManifestWellTyped(request)
               && var w := Webhook.WebhookSpec(run.after, request, Webhook.Settlement(None, paidAt, OrderStore.NoUpdateFault));
                  && w.reply == Response(StatusOK, Webhook.NoBody)
                  && w.confirmationFor == Some(c.orderId)
                  && c.orderId in w.after.orders
                  && w.after.orders[c.orderId] == OrderStore.OrderRow(u, OrderStore.StatusPaid, Some(paymentId),
                                                                       c.session.value.amountTotal, c.now, paidAt)
                  && |w.published| == |items|
                  && forall i :: 0 <= i < |items| ==>
                       w.published[i] == Webhook.Message(Webhook.TopicOrderPaid, c.orderId,
                                                         Webhook.OrderPaidEvent(c.orderId, items[i].productId, items[i].quantity, paidAt))
  {
    var service := CartServiceOf(ct, CartStore.NoReadFault);
    CartReadOverGrpc(ct, u, c.catalog);
    var resp := service(GrpcCart.GetCartDetailsRequest(u)).value;
    var d := Details(CartItemsOf(resp.cartItems), c.catalog).value;
    CheckoutV2Succeeds(t, u, c, service, resp, d);
    var run := CheckoutV2Spec(t, Some(Claims(u)), c, service);
    SettlePendingOrder(run.after, c.orderId, u, d, paymentId, paidAt);
  }
}
