/** The payment metadata that links a checkout to its settlement: the
    checkout puts the order id, the user id and a JSON manifest of the
    cart's products on the payment intent, and the webhook reads them
    back. JSON text is represented by what decoding it yields. */
module PaymentMetadata {
  import GoInt

  /** A decoded JSON value, as far as the manifest needs one. A number
      decodes to a float; `JOther` is any other value (an object, a list,
      a bool, null). */
  datatype JsonValue = JString(s: string) | JNumber(n: real) | JOther

  type JsonObject = map<string, JsonValue>

  /** What decoding the `products` metadata text into a list of objects
      yields: the list, or a decoding error. Text "null" decodes to the
      empty list, and null elements decode as empty objects; other text
      that is not a list of objects is Malformed. */
  datatype ProductsJson = Objects(objects: seq<JsonObject>) | Malformed

  /** The payment intent's metadata. A key the intent does not carry reads
      as the empty string; a missing `products` therefore is Malformed. */
  datatype Metadata = Metadata(orderId: string, userId: string, products: ProductsJson)

  /** The manifest entry for one product: `{"product_id": …, "quantity": …}`. */
  function ManifestEntry(productId: string, quantity: int): JsonObject {
    map["product_id" := JString(productId), "quantity" := JNumber(quantity as real)]
  }

  /** An entry whose `product_id` is a string and `quantity` a number, the
      shape the webhook's type assertions insist on. */
  predicate WellTyped(o: JsonObject) {
    && "product_id" in o && o["product_id"].JString?
    && "quantity" in o && o["quantity"].JNumber?
  }

  function EntryProductId(o: JsonObject): string
    requires WellTyped(o)
  {
    o["product_id"].s
  }

  /** The entry's quantity as the webhook reads it: the float with its
      fraction discarded. */
  function EntryQuantity(o: JsonObject): int
    requires WellTyped(o)
  {
    GoInt.Truncate(o["quantity"].n)
  }

  /** Every entry of the manifest is well typed. */
  predicate AllWellTyped(objects: seq<JsonObject>) {
    forall i :: 0 <= i < |objects| ==> WellTyped(objects[i])
  }

  /** Reading an entry back gives the product and quantity it was built from. */
  lemma ManifestEntryRoundTrip(productId: string, quantity: int)
    ensures WellTyped(ManifestEntry(productId, quantity))
    ensures EntryProductId(ManifestEntry(productId, quantity)) == productId
    ensures EntryQuantity(ManifestEntry(productId, quantity)) == quantity
  {
    GoInt.TruncateOfInt(quantity);
  }
}
