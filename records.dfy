/**
 * The structured results the language-model collaborators return
 * (the pydantic models of app.py). The router only reads fields from them.
 *
 * `confidence` and `discount_percentage` are floats in the source; they are
 * passed through untouched, so a `real` stands for them. `order_amount` is
 * kept as a whole number of cents so that its two-decimal rendering can be
 * stated exactly.
 */
module Records {
  /** What the classifier returns: a free-form category string and a confidence. */
  datatype ClassificationResponse = ClassificationResponse(
    reason: string,
    category: string,
    confidence: real)

  datatype BookResponse = BookResponse(reason: string, response: string)

  datatype ClothingResponse = ClothingResponse(reason: string, response: string)

  datatype RetentionResponse = RetentionResponse(
    offer: string,
    discountPercentage: real,
    response: string)

  /** `orderAmount` is in cents: 1999 stands for 19.99 USD. */
  datatype OrderResponse = OrderResponse(
    humanApproval: bool,
    orderItemName: string,
    itemId: int,
    orderId: int,
    orderAmount: int,
    response: string)
}
