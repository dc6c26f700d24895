/** The cart service's HTTP handlers: the guard sequence of AddToCart in
    front of the store, and the pass-through read of the active cart. */
module CartHandlers {
  import opened Wrappers
  import opened Transactions
  import opened Http
  import CartStore

  /** The bound JSON request body of AddToCart. */
  datatype AddRequest = AddRequest(productId: string, quantity: int)

  /** The product service's stock answer for one product. */
  datatype ProductServiceResponse = ProductServiceResponse(productId: string, stock: int, priceId: string)

  /** How the product lookup ends: service discovery fails, the GET fails
      or answers a status other than 200, the body does not decode, or the
      product's stock and price id arrive. */
  datatype StockLookup =
    | ProductServiceUnavailable
    | FetchFailed
    | DecodeFailed
    | Fetched(product: ProductServiceResponse)

  /** The JSON bodies the handlers answer with: `{"error": …}`,
      `{"message": …}` or `{"items": …}`. */
  datatype Body =
    | ErrorBody(error: string)
    | MessageBody(message: string)
    | ItemsBody(items: seq<CartStore.CartItem>)

  /** The arguments of the one store call AddToCart makes. */
  datatype StoreCall = StoreCall(userId: string, productId: string, quantity: int, stock: int, priceId: string)

  /** A handled AddToCart request: the response and the cart tables after it. */
  datatype AddRun = AddRun(response: Response<Body>, after: CartStore.CartTables)

  /** The request names a product and a positive quantity. */
  predicate ValidRequest(request: AddRequest) {
    request.productId != "" && request.quantity > 0
  }

  /** AddToCart's early returns, in source order, or the store call. The
      request handed to the store always names a product and asks for a
      positive quantity within the looked-up stock. */
  function AddToCartGuard(claims: Option<Claims>, request: Option<AddRequest>, lookup: StockLookup): (r: Result<StoreCall, Response<Body>>)
    ensures r.Success? ==> r.value.productId != "" && 0 < r.value.quantity <= r.value.stock
    ensures r.Success? ==>
              && claims.Some? && request.Some? && lookup.Fetched?
              && r.value == StoreCall(claims.value.subject, request.value.productId, request.value.quantity,
                                      lookup.product.stock, lookup.product.priceId)
    ensures r.Success? <==> claims.Some? && request.Some? && ValidRequest(request.value) && lookup.Fetched? &&
                             request.value.quantity <= lookup.product.stock
    ensures r.Failure? ==> r.error.status != StatusOK
  {
    if claims.None? then Failure(Response(StatusUnauthorized, ErrorBody("Unauthorized")))
    else if request.None? then Failure(Response(StatusBadRequest, MessageBody("Invalid request body")))
    else if !ValidRequest(request.value) then Failure(Response(StatusBadRequest, MessageBody("Product ID and quantity must be valid")))
    else match lookup
      case ProductServiceUnavailable => Failure(Response(StatusServiceUnavailable, MessageBody("Product service is unavailable")))
      case FetchFailed => Failure(Response(StatusBadGateway, MessageBody("Failed to fetch product details")))
      case DecodeFailed => Failure(Response(StatusInternalServerError, MessageBody("Failed to process product details")))
      case Fetched(product) =>
        if request.value.quantity > product.stock then Failure(Response(StatusConflict, MessageBody("Insufficient stock available")))
        else Success(StoreCall(claims.value.subject, request.value.productId, request.value.quantity, product.stock, product.priceId))
  }

  /** The whole AddToCart request: the guard, then the store's AddToCartDB. */
  function AddToCartSpec(t: CartStore.CartTables, claims: Option<Claims>, request: Option<AddRequest>, lookup: StockLookup,
                         fault: CartStore.AddFault): AddRun
  {
    match AddToCartGuard(claims, request, lookup)
    case Failure(response) => AddRun(response, t)
    case Success(call) =>
      var run := CartStore.AddToCartEffect(t, call.userId, call.productId, call.quantity, call.stock, fault);
      if run.outcome.Pass? then AddRun(Response(StatusOK, MessageBody("Product added to cart successfully")), run.after)
      else AddRun(Response(StatusInternalServerError, MessageBody("Failed to add product to cart")), run.after)
  }

  /** Without claims the answer is 401, whatever else the request holds. */
  lemma AddToCartUnauthorized(t: CartStore.CartTables, request: Option<AddRequest>, lookup: StockLookup, fault: CartStore.AddFault)
    ensures AddToCartSpec(t, None, request, lookup, fault) == AddRun(Response(StatusUnauthorized, ErrorBody("Unauthorized")), t)
  {
  }

  /** An unreadable body, an empty product id or a quantity that is not
      positive gives 400 before the product service is asked: the answer
      does not depend on the lookup and the store is not touched. */
  lemma AddToCartRejectsInvalidRequest(t: CartStore.CartTables, claims: Claims, request: Option<AddRequest>,
                                       lookup: StockLookup, other: StockLookup, fault: CartStore.AddFault)
    requires request.None? || !ValidRequest(request.value)
    ensures var run := AddToCartSpec(t, Some(claims), request, lookup, fault);
            && run.response.status == StatusBadRequest
            && run.after == t
            && run == AddToCartSpec(t, Some(claims), request, other, fault)
  {
  }

  /** A failed discovery gives 503, a failed fetch 502 and an undecodable
      answer 500; the store is not touched. */
  lemma AddToCartLookupFailures(t: CartStore.CartTables, claims: Claims, request: AddRequest, lookup: StockLookup, fault: CartStore.AddFault)
    requires ValidRequest(request)
    requires !lookup.Fetched?
    ensures var run := AddToCartSpec(t, Some(claims), Some(request), lookup, fault);
            && run.after == t
            && (lookup.ProductServiceUnavailable? ==> run.response.status == StatusServiceUnavailable)
            && (lookup.FetchFailed? ==> run.response.status == StatusBadGateway)
            && (lookup.DecodeFailed? ==> run.response.status == StatusInternalServerError)
  {
  }

  /** Asking for more than the looked-up stock gives 409 and the store is
      not touched. */
  lemma AddToCartOverStock(t: CartStore.CartTables, claims: Claims, request: AddRequest, product: ProductServiceResponse, fault: CartStore.AddFault)
    requires ValidRequest(request)
    requires request.quantity > product.stock
    ensures AddToCartSpec(t, Some(claims), Some(request), Fetched(product), fault) ==
            AddRun(Response(StatusConflict, MessageBody("Insufficient stock available")), t)
  {
  }

  /** Past the guards the store is called with the caller's subject, the
      request's product and quantity and the looked-up stock and price id;
      its failure gives 500 and its success 200. */
  lemma AddToCartCallsStore(t: CartStore.CartTables, claims: Claims, request: AddRequest, product: ProductServiceResponse, fault: CartStore.AddFault)
    requires ValidRequest(request)
    requires request.quantity <= product.stock
    ensures AddToCartGuard(Some(claims), Some(request), Fetched(product)) ==
            Success(StoreCall(claims.subject, request.productId, request.quantity, product.stock, product.priceId))
    ensures var run := AddToCartSpec(t, Some(claims), Some(request), Fetched(product), fault);
            var db := CartStore.AddToCartEffect(t, claims.subject, request.productId, request.quantity, product.stock, fault);
            && run.after == db.after
            && (run.response.status == StatusOK <==> db.outcome.Pass?)
            && (db.outcome.Fail? ==> run.response == Response(StatusInternalServerError, MessageBody("Failed to add product to cart")))
  {
  }

  /** 200 means the product now sits in the caller's active cart, on one
      line, within the looked-up stock; any other status leaves the
      tables as they were. */
  lemma AddToCartOkMeansAdded(t: CartStore.CartTables, claims: Option<Claims>, request: Option<AddRequest>,
                              lookup: StockLookup, fault: CartStore.AddFault)
    requires CartStore.Consistent(t)
    ensures var run := AddToCartSpec(t, claims, request, lookup, fault);
            && CartStore.Consistent(run.after)
            && (run.response.status != StatusOK ==> run.after == t)
            && (run.response.status == StatusOK ==>
                  && claims.Some? && request.Some? && lookup.Fetched?
                  && var c := CartStore.ActiveCart(run.after.carts, claims.value.subject);
                     var line := CartStore.FindLine(run.after.lines, c.value, request.value.productId);
                     && c.Some? && line.Some?
                     && run.after.lines[line.value].quantity <= lookup.product.stock)
  {
    var guard := AddToCartGuard(claims, request, lookup);
    if guard.Success? {
      var call := guard.value;
      CartStore.AddToCartPreservesConsistent(t, call.userId, call.productId, call.quantity, call.stock, fault);
      if CartStore.AddToCartEffect(t, call.userId, call.productId, call.quantity, call.stock, fault).outcome.Pass? {
        CartStore.AddToCartStaysWithinStock(t, call.userId, call.productId, call.quantity, call.stock, fault);
      }
    }
  }

  /** The handler over one cart service instance. */
  method AddToCart(store: CartStore.Store, claims: Option<Claims>, request: Option<AddRequest>, lookup: StockLookup,
                   fault: CartStore.AddFault) returns (response: Response<Body>)
    requires store.Valid()
    modifies store
    ensures store.Valid()
    ensures AddRun(response, store.Tables()) == AddToCartSpec(old(store.Tables()), claims, request, lookup, fault)
  {
    var guard := AddToCartGuard(claims, request, lookup);
    if guard.Failure? {
      return guard.error;
    }
    var call := guard.value;
    var outcome := store.AddToCartDB(call.userId, call.productId, call.quantity, call.stock, call.priceId, fault);
    if outcome.Fail? {
      return Response(StatusInternalServerError, MessageBody("Failed to add product to cart"));
    }
    response := Response(StatusOK, MessageBody("Product added to cart successfully"));
  }

  /** Answers the caller's active cart lines exactly as the store returns
      them, 500 when the store fails, 401 without claims. */
  method GetActiveCartItems(store: CartStore.Store, claims: Option<Claims>, fault: CartStore.ReadFault) returns (response: Response<Body>)
    ensures claims.None? ==> response == Response(StatusUnauthorized, ErrorBody("Unauthorized"))
    ensures claims.Some? ==>
              var items := CartStore.ActiveItems(store.Tables(), claims.value.subject, fault);
              && (items.Success? ==> response == Response(StatusOK, ItemsBody(items.value)))
              && (items.Failure? ==> response == Response(StatusInternalServerError, MessageBody("Failed to fetch cart items")))
  {
    if claims.None? {
      return Response(StatusUnauthorized, ErrorBody("Unauthorized"));
    }
    var items := store.GetActiveCartItems(claims.value.subject, fault);
    if items.Failure? {
      return Response(StatusInternalServerError, MessageBody("Failed to fetch cart items"));
    }
    response := Response(StatusOK, ItemsBody(items.value));
  }
}
