/** The order service's Stripe webhook: on a succeeded payment intent it
    publishes one OrderPaidEvent per manifest entry and marks the order
    paid; other event types are acknowledged and ignored. */
module Webhook {
  import opened Wrappers
  import opened Transactions
  import opened Http
  import opened PaymentMetadata
  import OrderStore

  const PaymentIntentSucceeded: string := "payment_intent.succeeded"

  /** The decoded payment intent: its id and its metadata. */
  datatype PaymentIntent = PaymentIntent(id: string, metadata: Metadata)

  /** The event's data: absent (the body has no `data` object, so the
      bound event's data pointer is nil), its raw JSON decoded as a payment
      intent, or raw JSON that does not decode as one. */
  datatype EventData = NoData | IntentJson(intent: PaymentIntent) | MalformedIntent

  /** A Stripe event as bound from the request body. */
  datatype Event = Event(eventType: string, data: EventData)

  /** The Kafka topic for paid orders (its name is defined in a file that
      is not part of this model). */
  datatype Topic = TopicOrderPaid

  datatype OrderPaidEvent = OrderPaidEvent(orderId: string, productId: string, quantity: int, createdAt: int)

  /** A produced message: topic, key (the order id) and the event. */
  datatype Message = Message(topic: Topic, key: string, value: OrderPaidEvent)

  /** The bodies the webhook answers with: none (a bare status), a
      decoding error `{"error": …}`, or `{"message": "Event type not
      handled", "event": …}`. */
  datatype ReplyBody = NoBody | DecodeError | NotHandled(eventType: string)

  /** What the collaborators of one delivery do: the index of the first
      manifest entry whose event cannot be marshalled or produced (None
      when all are), the clock, and the failing database step of the
      update, if any. */
  datatype Settlement = Settlement(failsAt: Option<nat>, now: int, updateFault: OrderStore.UpdateFault)

  /** A handled delivery: the reply the client receives, the messages
      produced, the order a confirmation mail is sent for, and the order
      tables after it. */
  datatype WebhookRun = WebhookRun(
    reply: Response<ReplyBody>,
    published: seq<Message>,
    confirmationFor: Option<string>,
    after: OrderStore.OrderTables)

  /** The message produced for one manifest entry. */
  function PaidMessage(orderId: string, entry: JsonObject, now: int): Message
    requires WellTyped(entry)
  {
    Message(TopicOrderPaid, orderId, OrderPaidEvent(orderId, EntryProductId(entry), EntryQuantity(entry), now))
  }

  /** The messages for all manifest entries, one per entry, in order. */
  function PaidMessages(orderId: string, products: seq<JsonObject>, now: int): (r: seq<Message>)
    requires AllWellTyped(products)
    ensures |r| == |products|
    ensures forall i :: 0 <= i < |products| ==> r[i] == PaidMessage(orderId, products[i], now)
  {
    if |products| == 0 then []
    else PaidMessages(orderId, products[..|products| - 1], now) + [PaidMessage(orderId, products[|products| - 1], now)]
  }

  /** How many entries are published before the first failure. */
  function Delivered(count: nat, failsAt: Option<nat>): (r: nat)
    ensures r <= count
    ensures failsAt.None? ==> r == count
    ensures r < count ==> failsAt == Some(r)
    ensures failsAt.Some? && failsAt.value < count ==> r == failsAt.value
  {
    if failsAt.Some? && failsAt.value < count then failsAt.value else count
  }

  /** The delivery would not panic: a decodable succeeded intent carries
      a manifest whose entries all have a string product id and a numeric
      quantity. */
  predicate ManifestWellTyped(request: Option<Event>) {
    request.Some? && request.value.eventType == PaymentIntentSucceeded && request.value.data.IntentJson? &&
    request.value.data.intent.metadata.products.Objects? ==>
      AllWellTyped(request.value.data.intent.metadata.products.objects)
  }

  /** The whole delivery; `request` is None when the body cannot be bound
      as an event. Reading the data of an event without one panics, and
      the router's recovery middleware answers a bare 500. A handler that
      returns without writing (after a failed update) leaves the router's
      pending status, a bare 200, as the reply. */
  function WebhookSpec(t: OrderStore.OrderTables, request: Option<Event>, s: Settlement): WebhookRun
    requires ManifestWellTyped(request)
  {
    if request.None? then WebhookRun(Response(StatusBadRequest, DecodeError), [], None, t)
    else if request.value.eventType != PaymentIntentSucceeded then
      WebhookRun(Response(StatusOK, NotHandled(request.value.eventType)), [], None, t)
    else match request.value.data
      case NoData => WebhookRun(Response(StatusInternalServerError, NoBody), [], None, t)
      case MalformedIntent => WebhookRun(Response(StatusBadRequest, DecodeError), [], None, t)
      case IntentJson(intent) =>
        match intent.metadata.products
        case Malformed => WebhookRun(Response(StatusBadRequest, DecodeError), [], None, t)
        case Objects(products) =>
          var orderId := intent.metadata.orderId;
          var published := PaidMessages(orderId, products, s.now)[..Delivered(|products|, s.failsAt)];
          var update := OrderStore.UpdateOrderEffect(t, orderId, OrderStore.StatusPaid, intent.id, s.now, s.updateFault);
          if update.outcome.Fail? then WebhookRun(Response(StatusOK, NoBody), published, None, update.after)
          else WebhookRun(Response(StatusOK, NoBody), published, Some(orderId), update.after)
  }

  // ---------------------------------------------------------------------
  // Lemmas about the webhook
  // ---------------------------------------------------------------------

  /** Any other event type is acknowledged with 200 and its type, with no
      update, no message and no mail. */
  lemma WebhookIgnoresOtherEvents(t: OrderStore.OrderTables, event: Event, s: Settlement)
    requires event.eventType != PaymentIntentSucceeded
    ensures WebhookSpec(t, Some(event), s) == WebhookRun(Response(StatusOK, NotHandled(event.eventType)), [], None, t)
  {
  }

  /** A succeeded-payment event without data makes the handler panic
      before anything is published or updated; the client gets a bare 500. */
  lemma WebhookPanicsWithoutData(t: OrderStore.OrderTables, s: Settlement)
    ensures WebhookSpec(t, Some(Event(PaymentIntentSucceeded, NoData)), s) ==
            WebhookRun(Response(StatusInternalServerError, NoBody), [], None, t)
  {
  }

  /** An unbindable body, an undecodable intent or an undecodable manifest
      gives 400, with no update, no message and no mail. */
  lemma WebhookRejectsMalformed(t: OrderStore.OrderTables, request: Option<Event>, s: Settlement)
    requires request.None? || request.value.data.MalformedIntent? ||
             (request.value.data.IntentJson? && request.value.data.intent.metadata.products.Malformed?)
    requires request.Some? ==> request.value.eventType == PaymentIntentSucceeded
    ensures WebhookSpec(t, request, s) == WebhookRun(Response(StatusBadRequest, DecodeError), [], None, t)
  {
  }

  /** The published messages are the manifest entries' events, in manifest
      order, up to the first failure: each on the paid-order topic, keyed
      by the metadata's order id, carrying that id and the entry's product
      and quantity. Which are published depends neither on the order
      tables nor on how the update goes. */
  lemma WebhookPublishesManifest(t: OrderStore.OrderTables, intent: PaymentIntent, s: Settlement,
                                 t2: OrderStore.OrderTables, fault2: OrderStore.UpdateFault)
    requires intent.metadata.products.Objects? && AllWellTyped(intent.metadata.products.objects)
    ensures var products := intent.metadata.products.objects;
            var orderId := intent.metadata.orderId;
            var run := WebhookSpec(t, Some(Event(PaymentIntentSucceeded, IntentJson(intent))), s);
            && |run.published| == Delivered(|products|, s.failsAt)
            && (s.failsAt.Some? && s.failsAt.value < |products| ==> |run.published| == s.failsAt.value)
            && (forall i :: 0 <= i < |run.published| ==>
                  run.published[i] == Message(TopicOrderPaid, orderId,
                                              OrderPaidEvent(orderId, EntryProductId(products[i]), EntryQuantity(products[i]), s.now)))
            && run.published == WebhookSpec(t2, Some(Event(PaymentIntentSucceeded, IntentJson(intent))), s.(updateFault := fault2)).published
  {
  }

  /** The update names the metadata's order id, the paid status and the
      intent's id; the mail follows only a successful update. The client
      gets the same bare 200 whether or not the update succeeded, so a
      failed settlement is acknowledged like a successful one. */
  lemma WebhookSettlesOrder(t: OrderStore.OrderTables, intent: PaymentIntent, s: Settlement)
    requires intent.metadata.products.Objects? && AllWellTyped(intent.metadata.products.objects)
    ensures var orderId := intent.metadata.orderId;
            var run := WebhookSpec(t, Some(Event(PaymentIntentSucceeded, IntentJson(intent))), s);
            var update := OrderStore.UpdateOrderEffect(t, orderId, OrderStore.StatusPaid, intent.id, s.now, s.updateFault);
            && run.after == update.after
            && (run.confirmationFor.Some? <==> update.outcome.Pass?)
            && run.reply == Response(StatusOK, NoBody)
            && (update.outcome.Pass? ==> run.confirmationFor == Some(orderId))
            && (update.outcome.Fail? ==> run.after == t)
            && (orderId in t.orders && s.updateFault == OrderStore.NoUpdateFault ==>
                  && run.after.orders[orderId].status == OrderStore.StatusPaid
                  && run.after.orders[orderId].stripeTransactionId == Some(intent.id))
  {
    OrderStore.UpdateOrderOutcome(t, intent.metadata.orderId, OrderStore.StatusPaid, intent.id, s.now, s.updateFault);
  }

  /** A payment for an order id the tables do not hold still publishes the
      manifest's events, while the update fails, nothing changes and no
      mail goes out; the client still gets a bare 200. */
  lemma WebhookPublishesWithoutOrder(t: OrderStore.OrderTables, intent: PaymentIntent, s: Settlement)
    requires intent.metadata.products.Objects? && AllWellTyped(intent.metadata.products.objects)
    requires intent.metadata.orderId !in t.orders
    ensures var run := WebhookSpec(t, Some(Event(PaymentIntentSucceeded, IntentJson(intent))), s);
            && run.reply == Response(StatusOK, NoBody) && run.confirmationFor.None? && run.after == t
            && |run.published| == Delivered(|intent.metadata.products.objects|, s.failsAt)
  {
    OrderStore.UpdateOrderOutcome(t, intent.metadata.orderId, OrderStore.StatusPaid, intent.id, s.now, s.updateFault);
  }

  /** Nothing guards against a redelivery: delivering the same event again,
      for the same clock value and the same collaborator behaviour,
      re-produces the same messages and leaves the same tables. */
  lemma WebhookRedelivery(t: OrderStore.OrderTables, request: Option<Event>, s: Settlement)
    requires ManifestWellTyped(request)
    ensures var first := WebhookSpec(t, request, s);
            var second := WebhookSpec(first.after, request, s);
            second.published == first.published && second.after == first.after
  {
    if request.Some? && request.value.eventType == PaymentIntentSucceeded && request.value.data.IntentJson? {
      var intent := request.value.data.intent;
      if intent.metadata.products.Objects? {
        OrderStore.UpdateOrderIdempotent(t, intent.metadata.orderId, OrderStore.StatusPaid, intent.id, s.now, s.updateFault);
      }
    }
  }

  // ---------------------------------------------------------------------
  // The handler
  // ---------------------------------------------------------------------

  /** The fan-out loop: produces the manifest's messages one by one and
      returns at the first failure. */
  method FanOut(orderId: string, products: seq<JsonObject>, failsAt: Option<nat>, now: int) returns (published: seq<Message>)
    requires AllWellTyped(products)
    ensures published == PaidMessages(orderId, products, now)[..Delivered(|products|, failsAt)]
  {
    published := [];
    var i := 0;
    while i < |products|
      invariant 0 <= i <= |products|
      invariant failsAt.Some? ==> i <= failsAt.value
      invariant published == PaidMessages(orderId, products[..i], now)
    {
      if failsAt == Some(i) {
        assert PaidMessages(orderId, products, now)[..i] == published;
        return;
      }
      var item := products[i];
      var event := OrderPaidEvent(orderId, EntryProductId(item), EntryQuantity(item), now);
      assert products[..i + 1][..i] == products[..i];
      published := published + [Message(TopicOrderPaid, orderId, event)];
      i := i + 1;
    }
    assert products[..i] == products;
  }

  /** The webhook over the order store. */
  method HandleWebhook(store: OrderStore.Store, request: Option<Event>, s: Settlement)
    returns (reply: Response<ReplyBody>, published: seq<Message>, confirmationFor: Option<string>)
    requires store.Valid()
    requires ManifestWellTyped(request)
    modifies store
    ensures store.Valid()
    ensures WebhookRun(reply, published, confirmationFor, store.Tables()) == WebhookSpec(old(store.Tables()), request, s)
  {
    published, confirmationFor := [], None;
    if request.None? {
      reply := Response(StatusBadRequest, DecodeError);
      return;
    }
    var event := request.value;
    if event.eventType != PaymentIntentSucceeded {
      reply := Response(StatusOK, NotHandled(event.eventType));
      return;
    }
    if event.data.NoData? {
      reply := Response(StatusInternalServerError, NoBody);
      return;
    }
    if event.data.MalformedIntent? {
      reply := Response(StatusBadRequest, DecodeError);
      return;
    }
    var intent := event.data.intent;
    var orderId := intent.metadata.orderId;
    if intent.metadata.products.Malformed? {
      reply := Response(StatusBadRequest, DecodeError);
      return;
    }
    var products := intent.metadata.products.objects;
    published := FanOut(orderId, products, s.failsAt, s.now);
    var updated := store.UpdateOrder(orderId, OrderStore.StatusPaid, intent.id, s.now, s.updateFault);
    reply := Response(StatusOK, NoBody);
    if updated.Fail? {
      return;
    }
    confirmationFor := Some(orderId);
  }
}
