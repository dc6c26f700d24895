/** The cart service's database layer: the `cart` and `cart_items` tables
    and the two transactional operations on them, AddToCartDB and
    GetActiveCartItems. */
module CartStore {
  import opened Wrappers
  import opened Transactions

  type UserId = string
  type ProductId = string

  /** Values of `cart.status`. This code only ever writes Active. */
  datatype CartStatus = Active | Converted

  /** A row of the `cart` table; the row's id is its position in the table. */
  datatype CartRow = CartRow(userId: UserId, status: CartStatus)

  /** A row of the `cart_items` table. */
  datatype LineRow = LineRow(cartId: nat, productId: ProductId, quantity: int)

  /** One line of a cart as the store hands it out. */
  datatype CartItem = CartItem(productId: ProductId, quantity: int)

  /** Both tables, in table order. */
  datatype CartTables = CartTables(carts: seq<CartRow>, lines: seq<LineRow>)

  datatype CartError =
    | QueryCartFailed
    | CreateCartFailed
    | QueryLineFailed
    | InsufficientStock(requested: int, available: int)
    | InsertLineFailed
    | UpdateLineFailed
    | NoActiveCart(userId: UserId)
    | QueryItemsFailed
    | ScanFailed
    | IterateFailed

  /** The one statement of an AddToCartDB call that the database rejects,
      if any (a rejected SELECT is an error other than "no rows"). */
  datatype AddFault =
    | NoAddFault
    | AddBeginFails
    | QueryCartFails
    | CreateCartFails
    | QueryLineFails
    | InsertLineFails
    | UpdateLineFails
    | AddCommitFails

  /** The one step of a GetActiveCartItems call that the database rejects,
      if any; ScanFails(k) is the scan of the k-th result row. */
  datatype ReadFault =
    | NoReadFault
    | ReadBeginFails
    | ReadQueryCartFails
    | QueryItemsFails
    | ScanFails(row: nat)
    | IterateFails
    | ReadCommitFails

  predicate ActiveFor(row: CartRow, u: UserId) {
    row.userId == u && row.status == Active
  }

  /** Invariant I1: at most one active cart per user. */
  ghost predicate OneActiveCartPerUser(carts: seq<CartRow>) {
    forall i, j ::
      (0 <= i < |carts| && 0 <= j < |carts| && carts[i].status == Active && carts[j].status == Active
       && carts[i].userId == carts[j].userId) ==> i == j
  }

  /** At most one line per (cart, product). */
  ghost predicate OneLinePerProduct(lines: seq<LineRow>) {
    forall i, j ::
      (0 <= i < |lines| && 0 <= j < |lines| && lines[i].cartId == lines[j].cartId
       && lines[i].productId == lines[j].productId) ==> i == j
  }

  /** The invariants the two operations keep. */
  ghost predicate Consistent(t: CartTables) {
    && OneActiveCartPerUser(t.carts)
    && OneLinePerProduct(t.lines)
    && forall i :: 0 <= i < |t.lines| ==> t.lines[i].cartId < |t.carts|
  }

  /** `SELECT id FROM cart WHERE user_id = $1 AND status = 'active'`. */
  function ActiveCart(carts: seq<CartRow>, u: UserId): (r: Option<nat>)
    ensures r.Some? ==> r.value < |carts| && ActiveFor(carts[r.value], u)
    ensures r.None? ==> forall i :: 0 <= i < |carts| ==> !ActiveFor(carts[i], u)
  {
    if |carts| == 0 then None
    else if ActiveFor(carts[|carts| - 1], u) then Some(|carts| - 1)
    else ActiveCart(carts[..|carts| - 1], u)
  }

  /** `SELECT id, quantity FROM cart_items WHERE cart_id = $1 AND product_id = $2`. */
  function FindLine(lines: seq<LineRow>, cartId: nat, p: ProductId): (r: Option<nat>)
    ensures r.Some? ==> r.value < |lines| && lines[r.value].cartId == cartId && lines[r.value].productId == p
    ensures r.None? ==> forall i :: 0 <= i < |lines| ==> !(lines[i].cartId == cartId && lines[i].productId == p)
  {
    if |lines| == 0 then None
    else if lines[|lines| - 1].cartId == cartId && lines[|lines| - 1].productId == p then Some(|lines| - 1)
    else FindLine(lines[..|lines| - 1], cartId, p)
  }

  /** `SELECT product_id, quantity FROM cart_items WHERE cart_id = $1`, in table order. */
  function LinesOf(lines: seq<LineRow>, cartId: nat): seq<CartItem>
  {
    if |lines| == 0 then []
    else
      var last := lines[|lines| - 1];
      LinesOf(lines[..|lines| - 1], cartId) + (if last.cartId == cartId then [CartItem(last.productId, last.quantity)] else [])
  }

  /** The cart an AddToCartDB call for `u` writes into: the active one, or
      the one it creates, whose id is the next row position. */
  function TargetCart(carts: seq<CartRow>, u: UserId): nat {
    match ActiveCart(carts, u)
    case Some(c) => c
    case None => |carts|
  }

  /** What AddToCartDB's callback computes on the transaction's working copy. */
  function AddToCartBody(t: CartTables, u: UserId, p: ProductId, quantity: int, stock: int, fault: AddFault): Result<CartTables, CartError>
  {
    if fault == QueryCartFails then Failure(QueryCartFailed)
    else if ActiveCart(t.carts, u).None? && fault == CreateCartFails then Failure(CreateCartFailed)
    else
      var cartId := TargetCart(t.carts, u);
      var carts := if ActiveCart(t.carts, u).Some? then t.carts else t.carts + [CartRow(u, Active)];
      if fault == QueryLineFails then Failure(QueryLineFailed)
      else match FindLine(t.lines, cartId, p)
        case None =>
          if quantity > stock then Failure(InsufficientStock(quantity, stock))
          else if fault == InsertLineFails then Failure(InsertLineFailed)
          else Success(CartTables(carts, t.lines + [LineRow(cartId, p, quantity)]))
        case Some(k) =>
          var merged := t.lines[k].quantity + quantity;
          if merged > stock then Failure(InsufficientStock(merged, stock))
          else if fault == UpdateLineFails then Failure(UpdateLineFailed)
          else Success(CartTables(carts, t.lines[k := t.lines[k].(quantity := merged)]))
  }

  /** The whole AddToCartDB call: its callback inside withTx. */
  function AddToCartEffect(t: CartTables, u: UserId, p: ProductId, quantity: int, stock: int, fault: AddFault): TxRun<CartTables, CartError>
  {
    RunTx(t, fault != AddBeginFails, AddToCartBody(t, u, p, quantity, stock, fault), fault != AddCommitFails)
  }

  /** The result rows of the items query are all read without an error. */
  predicate ReadCompletes(fault: ReadFault, rows: nat) {
    fault == NoReadFault || (fault.ScanFails? && fault.row >= rows)
  }

  /** What GetActiveCartItems returns. A read changes nothing, so its
      rollback has nothing to undo. */
  function ActiveItems(t: CartTables, u: UserId, fault: ReadFault): (r: Result<seq<CartItem>, TxError<CartError>>)
    ensures r.Success? <==> ActiveCart(t.carts, u).Some? && ReadCompletes(fault, |LinesOf(t.lines, ActiveCart(t.carts, u).value)|)
    ensures r.Success? ==> r.value == LinesOf(t.lines, ActiveCart(t.carts, u).value)
    ensures fault != ReadBeginFails && fault != ReadQueryCartFails && ActiveCart(t.carts, u).None? ==>
              r == Failure(Aborted(NoActiveCart(u)))
  {
    if fault == ReadBeginFails then Failure(BeginFailed)
    else if fault == ReadQueryCartFails then Failure(Aborted(QueryCartFailed))
    else match ActiveCart(t.carts, u)
      case None => Failure(Aborted(NoActiveCart(u)))
      case Some(c) =>
        var rows := LinesOf(t.lines, c);
        if fault == QueryItemsFails then Failure(Aborted(QueryItemsFailed))
        else if fault.ScanFails? && fault.row < |rows| then Failure(Aborted(ScanFailed))
        else if fault == IterateFails then Failure(Aborted(IterateFailed))
        else if fault == ReadCommitFails then Failure(CommitFailed)
        else Success(rows)
  }

  // ---------------------------------------------------------------------
  // Lemmas about the store's operations
  // ---------------------------------------------------------------------

  /** A cart item is read back exactly when the table holds a line for
      that cart with that product and quantity. */
  lemma {:induction false} LinesOfMembership(lines: seq<LineRow>, cartId: nat, item: CartItem)
    ensures item in LinesOf(lines, cartId) <==>
              exists i :: 0 <= i < |lines| && lines[i] == LineRow(cartId, item.productId, item.quantity)
  {
    if |lines| > 0 {
      var init := lines[..|lines| - 1];
      LinesOfMembership(init, cartId, item);
      if exists i :: 0 <= i < |lines| && lines[i] == LineRow(cartId, item.productId, item.quantity) {
        var i :| 0 <= i < |lines| && lines[i] == LineRow(cartId, item.productId, item.quantity);
        if i < |lines| - 1 {
          assert init[i] == lines[i];
        }
      }
      if exists i :: 0 <= i < |init| && init[i] == LineRow(cartId, item.productId, item.quantity) {
        var i :| 0 <= i < |init| && init[i] == LineRow(cartId, item.productId, item.quantity);
        assert lines[i] == init[i];
      }
    }
  }

  /** A cart that no line refers to reads back empty. */
  lemma {:induction false} LinesOfUnreferenced(lines: seq<LineRow>, cartId: nat)
    requires forall i :: 0 <= i < |lines| ==> lines[i].cartId != cartId
    ensures LinesOf(lines, cartId) == []
  {
    if |lines| > 0 {
      LinesOfUnreferenced(lines[..|lines| - 1], cartId);
    }
  }

  /** Appending a line to the table appends it to its cart's read-back. */
  lemma LinesOfAppend(lines: seq<LineRow>, row: LineRow)
    ensures LinesOf(lines + [row], row.cartId) == LinesOf(lines, row.cartId) + [CartItem(row.productId, row.quantity)]
  {
    assert (lines + [row])[..|lines|] == lines;
  }

  /** Uniqueness lets the store find the one active cart of a user. */
  lemma ActiveCartIsTheActiveOne(carts: seq<CartRow>, u: UserId, c: nat)
    requires OneActiveCartPerUser(carts)
    requires c < |carts| && ActiveFor(carts[c], u)
    ensures ActiveCart(carts, u) == Some(c)
  {
  }

  /** AddToCartDB keeps every invariant, whatever the outcome. */
  lemma AddToCartPreservesConsistent(t: CartTables, u: UserId, p: ProductId, quantity: int, stock: int, fault: AddFault)
    requires Consistent(t)
    ensures Consistent(AddToCartEffect(t, u, p, quantity, stock, fault).after)
  {
    var body := AddToCartBody(t, u, p, quantity, stock, fault);
    if body.Success? {
      var n := body.value;
      var cartId := TargetCart(t.carts, u);
      if ActiveCart(t.carts, u).None? {
        assert n.carts == t.carts + [CartRow(u, Active)];
      }
      assert cartId < |n.carts|;
      match FindLine(t.lines, cartId, p)
      case None =>
        assert n.lines == t.lines + [LineRow(cartId, p, quantity)];
      case Some(k) =>
        assert |n.lines| == |t.lines|;
        assert forall i :: 0 <= i < |n.lines| ==> n.lines[i].cartId == t.lines[i].cartId && n.lines[i].productId == t.lines[i].productId;
    }
  }

  /** A user's existing active cart is reused: no cart row is added. */
  lemma AddToCartReusesActiveCart(t: CartTables, u: UserId, p: ProductId, quantity: int, stock: int, fault: AddFault)
    requires ActiveCart(t.carts, u).Some?
    ensures AddToCartEffect(t, u, p, quantity, stock, fault).after.carts == t.carts
  {
  }

  /** A successful first add for a user leaves exactly one active cart for
      that user: the one created at the next row position. */
  lemma AddToCartCreatesOneActiveCart(t: CartTables, u: UserId, p: ProductId, quantity: int, stock: int, fault: AddFault)
    requires Consistent(t)
    requires ActiveCart(t.carts, u).None?
    requires AddToCartEffect(t, u, p, quantity, stock, fault).outcome.Pass?
    ensures var after := AddToCartEffect(t, u, p, quantity, stock, fault).after;
            && after.carts == t.carts + [CartRow(u, Active)]
            && ActiveCart(after.carts, u) == Some(|t.carts|)
            && forall i :: 0 <= i < |after.carts| && ActiveFor(after.carts[i], u) ==> i == |t.carts|
  {
    var after := AddToCartEffect(t, u, p, quantity, stock, fault).after;
    AddToCartPreservesConsistent(t, u, p, quantity, stock, fault);
    ActiveCartIsTheActiveOne(after.carts, u, |t.carts|);
  }

  /** Adding a product that is not yet in the cart with more than the
      stock fails and leaves both tables as they were, including the cart
      row the call may have created before the check. */
  lemma AddToCartNewLineOverStock(t: CartTables, u: UserId, p: ProductId, quantity: int, stock: int, fault: AddFault)
    requires FindLine(t.lines, TargetCart(t.carts, u), p).None?
    requires quantity > stock
    ensures var run := AddToCartEffect(t, u, p, quantity, stock, fault);
            && run.outcome.Fail?
            && run.after == t
            && (fault == NoAddFault ==> run.outcome == Fail(Aborted(InsufficientStock(quantity, stock))))
  {
  }

  /** Adding a product that is not yet in the cart within stock adds
      exactly the line (cart, product, quantity); all other lines stay. */
  lemma AddToCartNewLine(t: CartTables, u: UserId, p: ProductId, quantity: int, stock: int)
    requires FindLine(t.lines, TargetCart(t.carts, u), p).None?
    requires quantity <= stock
    ensures var run := AddToCartEffect(t, u, p, quantity, stock, NoAddFault);
            && run.outcome.Pass?
            && run.after.lines == t.lines + [LineRow(TargetCart(t.carts, u), p, quantity)]
  {
  }

  /** Adding a product already in the cart adds to that line's quantity,
      in place: no second line for the product appears and every other
      line is unchanged. */
  lemma AddToCartMergesLine(t: CartTables, u: UserId, p: ProductId, quantity: int, stock: int, k: nat)
    requires Consistent(t)
    requires k < |t.lines| && t.lines[k].cartId == TargetCart(t.carts, u) && t.lines[k].productId == p
    requires t.lines[k].quantity + quantity <= stock
    ensures var run := AddToCartEffect(t, u, p, quantity, stock, NoAddFault);
            && run.outcome.Pass?
            && |run.after.lines| == |t.lines|
            && run.after.lines[k] == t.lines[k].(quantity := t.lines[k].quantity + quantity)
            && (forall i :: 0 <= i < |t.lines| && i != k ==> run.after.lines[i] == t.lines[i])
            && FindLine(run.after.lines, TargetCart(t.carts, u), p) == Some(k)
  {
    assert FindLine(t.lines, TargetCart(t.carts, u), p) == Some(k);
    AddToCartPreservesConsistent(t, u, p, quantity, stock, NoAddFault);
  }

  /** A merge whose total exceeds the stock fails and changes nothing. */
  lemma AddToCartMergeOverStock(t: CartTables, u: UserId, p: ProductId, quantity: int, stock: int, fault: AddFault, k: nat)
    requires Consistent(t)
    requires k < |t.lines| && t.lines[k].cartId == TargetCart(t.carts, u) && t.lines[k].productId == p
    requires t.lines[k].quantity + quantity > stock
    ensures var run := AddToCartEffect(t, u, p, quantity, stock, fault);
            && run.outcome.Fail?
            && run.after == t
            && (fault == NoAddFault ==> run.outcome == Fail(Aborted(InsufficientStock(t.lines[k].quantity + quantity, stock))))
  {
    assert FindLine(t.lines, TargetCart(t.carts, u), p) == Some(k);
  }

  /** After a successful add the product has exactly one line in the
      user's active cart, and its quantity does not exceed the stock the
      call was given. */
  lemma AddToCartStaysWithinStock(t: CartTables, u: UserId, p: ProductId, quantity: int, stock: int, fault: AddFault)
    requires Consistent(t)
    requires AddToCartEffect(t, u, p, quantity, stock, fault).outcome.Pass?
    ensures var after := AddToCartEffect(t, u, p, quantity, stock, fault).after;
            var c := TargetCart(t.carts, u);
            && ActiveCart(after.carts, u) == Some(c)
            && FindLine(after.lines, c, p).Some?
            && after.lines[FindLine(after.lines, c, p).value].quantity <= stock
            && forall i :: 0 <= i < |after.lines| && after.lines[i].cartId == c && after.lines[i].productId == p ==>
                 i == FindLine(after.lines, c, p).value
  {
    var after := AddToCartEffect(t, u, p, quantity, stock, fault).after;
    var c := TargetCart(t.carts, u);
    AddToCartPreservesConsistent(t, u, p, quantity, stock, fault);
    ActiveCartIsTheActiveOne(after.carts, u, c);
    match FindLine(t.lines, c, p)
    case None =>
      assert after.lines == t.lines + [LineRow(c, p, quantity)];
      assert FindLine(after.lines, c, p) == Some(|t.lines|);
    case Some(k) =>
      assert after.lines[k].cartId == c && after.lines[k].productId == p;
  }

  /** After a successful add of a new product, reading the cart gives the
      old lines followed by the new one. */
  lemma ReadAfterNewLine(t: CartTables, u: UserId, p: ProductId, quantity: int, stock: int)
    requires Consistent(t)
    requires FindLine(t.lines, TargetCart(t.carts, u), p).None?
    requires quantity <= stock
    ensures var after := AddToCartEffect(t, u, p, quantity, stock, NoAddFault).after;
            ActiveItems(after, u, NoReadFault) ==
              Success((if ActiveCart(t.carts, u).Some? then LinesOf(t.lines, TargetCart(t.carts, u)) else []) + [CartItem(p, quantity)])
  {
    var after := AddToCartEffect(t, u, p, quantity, stock, NoAddFault).after;
    var c := TargetCart(t.carts, u);
    AddToCartPreservesConsistent(t, u, p, quantity, stock, NoAddFault);
    ActiveCartIsTheActiveOne(after.carts, u, c);
    LinesOfAppend(t.lines, LineRow(c, p, quantity));
    if ActiveCart(t.carts, u).None? {
      LinesOfUnreferenced(t.lines, c);
    }
  }

  /** Adding 3 and then 4 of a product with stock 5 to an empty store:
      the second add fails and the cart still reads [p1 x 3]. */
  lemma AddThreeThenFour()
    ensures var first := AddToCartEffect(CartTables([], []), "u1", "p1", 3, 5, NoAddFault);
            var second := AddToCartEffect(first.after, "u1", "p1", 4, 5, NoAddFault);
            && first.outcome.Pass?
            && second.outcome == Fail(Aborted(InsufficientStock(7, 5)))
            && ActiveItems(second.after, "u1", NoReadFault) == Success([CartItem("p1", 3)])
  {
    var t1 := CartTables([CartRow("u1", Active)], [LineRow(0, "p1", 3)]);
    assert ActiveCart([], "u1") == None;
    assert TargetCart([], "u1") == 0;
    assert FindLine([], 0, "p1") == None;
    assert [] + [CartRow("u1", Active)] == t1.carts && [] + [LineRow(0, "p1", 3)] == t1.lines;
    assert AddToCartBody(CartTables([], []), "u1", "p1", 3, 5, NoAddFault) == Success(t1);
    assert ActiveCart(t1.carts, "u1") == Some(0);
    assert FindLine(t1.lines, 0, "p1") == Some(0);
    assert AddToCartBody(t1, "u1", "p1", 4, 5, NoAddFault) == Failure(InsufficientStock(7, 5));
    assert LinesOf(t1.lines, 0) == [CartItem("p1", 3)];
  }

  /** The database behind one cart service instance. */
  class Store {
    var carts: seq<CartRow>
    var lines: seq<LineRow>

    constructor ()
      ensures carts == [] && lines == []
      ensures Valid()
    {
      carts := [];
      lines := [];
    }

    function Tables(): CartTables
      reads this
    {
      CartTables(carts, lines)
    }

    ghost predicate Valid()
      reads this
    {
      Consistent(Tables())
    }

    /** Adds `quantity` of `productId` to the user's active cart, creating
        the cart if there is none, checking against `stock`. The price id
        reaches only a log line, so it has no effect on the tables. */
    method AddToCartDB(userId: UserId, productId: ProductId, quantity: int, stock: int, stripePriceId: string, fault: AddFault)
      returns (r: Outcome<TxError<CartError>>)
      requires Valid()
      modifies this
      ensures Valid()
      ensures TxRun(r, Tables()) == AddToCartEffect(old(Tables()), userId, productId, quantity, stock, fault)
    {
      AddToCartPreservesConsistent(Tables(), userId, productId, quantity, stock, fault);
      if fault == AddBeginFails {
        return Fail(BeginFailed);
      }
      // The transaction works on a copy that only a commit writes back.
      var txCarts, txLines := carts, lines;
      if fault == QueryCartFails {
        return Fail(Aborted(QueryCartFailed));
      }
      var cartId: nat;
      var found := ActiveCart(txCarts, userId);
      if found.Some? {
        cartId := found.value;
      } else {
        if fault == CreateCartFails {
          return Fail(Aborted(CreateCartFailed));
        }
        cartId := |txCarts|;
        txCarts := txCarts + [CartRow(userId, Active)];
      }
      if fault == QueryLineFails {
        return Fail(Aborted(QueryLineFailed));
      }
      var line := FindLine(txLines, cartId, productId);
      if line.None? {
        if quantity > stock {
          return Fail(Aborted(InsufficientStock(quantity, stock)));
        }
        if fault == InsertLineFails {
          return Fail(Aborted(InsertLineFailed));
        }
        txLines := txLines + [LineRow(cartId, productId, quantity)];
      } else {
        var newQuantity := txLines[line.value].quantity + quantity;
        if newQuantity > stock {
          return Fail(Aborted(InsufficientStock(newQuantity, stock)));
        }
        if fault == UpdateLineFails {
          return Fail(Aborted(UpdateLineFailed));
        }
        txLines := txLines[line.value := txLines[line.value].(quantity := newQuantity)];
      }
      if fault == AddCommitFails {
        return Fail(CommitFailed);
      }
      carts, lines := txCarts, txLines;
      r := Pass;
    }

    /** Reads the (product, quantity) lines of the user's active cart. */
    method GetActiveCartItems(userId: UserId, fault: ReadFault) returns (r: Result<seq<CartItem>, TxError<CartError>>)
      ensures r == ActiveItems(Tables(), userId, fault)
    {
      if fault == ReadBeginFails {
        return Failure(BeginFailed);
      }
      if fault == ReadQueryCartFails {
        return Failure(Aborted(QueryCartFailed));
      }
      var found := ActiveCart(carts, userId);
      if found.None? {
        return Failure(Aborted(NoActiveCart(userId)));
      }
      if fault == QueryItemsFails {
        return Failure(Aborted(QueryItemsFailed));
      }
      // The result set of the items query, consumed row by row.
      var rows := LinesOf(lines, found.value);
      var items: seq<CartItem> := [];
      var i := 0;
      while i < |rows|
        invariant 0 <= i <= |rows|
        invariant items == rows[..i]
        invariant !(fault.ScanFails? && fault.row < i)
      {
        if fault == ScanFails(i) {
          return Failure(Aborted(ScanFailed));
        }
        items := items + [rows[i]];
        i := i + 1;
      }
      if fault == IterateFails {
        return Failure(Aborted(IterateFailed));
      }
      if fault == ReadCommitFails {
        return Failure(CommitFailed);
      }
      assert items == rows;
      r := Success(items);
    }
  }
}
