/** The cart service's gRPC endpoint GetCartDetails, which the order
    service's second checkout uses to read a user's cart. */
module GrpcCart {
  import opened Wrappers
  import Transactions
  import CartStore

  /** One cart line of the protobuf response. */
  datatype PbCartItem = PbCartItem(productId: string, quantity: int)

  datatype GetCartDetailsRequest = GetCartDetailsRequest(userId: string)

  datatype GetCartDetailsResponse = GetCartDetailsResponse(cartItems: seq<PbCartItem>)

  /** gRPC status codes this endpoint answers with. */
  datatype Code = Internal

  /** A gRPC error status; its message embeds the store's error. */
  datatype GrpcError = GrpcError(code: Code, cause: Transactions.TxError<CartStore.CartError>)

  /** The store's cart items copied one by one into protobuf items. */
  function ToPbItems(items: seq<CartStore.CartItem>): (r: seq<PbCartItem>)
    ensures |r| == |items|
    ensures forall i :: 0 <= i < |items| ==> r[i].productId == items[i].productId && r[i].quantity == items[i].quantity
  {
    if |items| == 0 then []
    else ToPbItems(items[..|items| - 1]) + [PbCartItem(items[|items| - 1].productId, items[|items| - 1].quantity)]
  }

  /** The copy is reversible: the store's items can be read back from the
      response. */
  lemma ToPbItemsInjective(a: seq<CartStore.CartItem>, b: seq<CartStore.CartItem>)
    requires ToPbItems(a) == ToPbItems(b)
    ensures a == b
  {
    assert |a| == |b|;
    assert forall i :: 0 <= i < |a| ==> a[i] == b[i] by {
      forall i | 0 <= i < |a|
        ensures a[i] == b[i]
      {
        assert ToPbItems(a)[i] == ToPbItems(b)[i];
      }
    }
  }

  /** GetCartDetails' answer over the cart tables: the request user's
      active cart lines, copied, or an Internal status carrying the store's
      error. */
  function CartDetails(t: CartStore.CartTables, request: GetCartDetailsRequest, fault: CartStore.ReadFault)
    : (r: Result<GetCartDetailsResponse, GrpcError>)
    ensures var items := CartStore.ActiveItems(t, request.userId, fault);
            && (r.Success? <==> items.Success?)
            && (items.Failure? ==> r == Failure(GrpcError(Internal, items.error)))
            && (items.Success? ==>
                  && |r.value.cartItems| == |items.value|
                  && forall i :: 0 <= i < |items.value| ==>
                       r.value.cartItems[i].productId == items.value[i].productId &&
                       r.value.cartItems[i].quantity == items.value[i].quantity)
  {
    match CartStore.ActiveItems(t, request.userId, fault)
    case Failure(e) => Failure(GrpcError(Internal, e))
    case Success(items) => Success(GetCartDetailsResponse(ToPbItems(items)))
  }

  /** Reads the request user's active cart; a store error becomes an
      Internal status and no response. */
  method GetCartDetails(store: CartStore.Store, request: GetCartDetailsRequest, fault: CartStore.ReadFault)
    returns (r: Result<GetCartDetailsResponse, GrpcError>)
    ensures r == CartDetails(store.Tables(), request, fault)
  {
    var items := store.GetActiveCartItems(request.userId, fault);
    if items.Failure? {
      return Failure(GrpcError(Internal, items.error));
    }
    r := Success(GetCartDetailsResponse(ToPbItems(items.value)));
  }
}
