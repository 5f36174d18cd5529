/**
  The persistence mappers: a stored row holds plain strings and numbers, and
  mapping it back into the domain re-validates every field through the
  domain's own factories. Timestamps are not part of this model.
 */
module Mappers {
  import opened Wrappers
  import opened Exceptions
  import opened Ids
  import opened MoneyValue
  import opened Products
  import opened ProductEventTypes
  import opened ProductEvents

  /** A row of the `product` table. */
  datatype ProductRow = ProductRow(id: string, name: string, cost: int, amountAvailable: int, sellerId: string)

  /** A row of the `product_event` table; `metadata` is `None` for a SQL `NULL`. */
  datatype ProductEventRow = ProductEventRow(
    id: string, productId: string, eventType: string, quantity: int, unitPrice: int,
    totalValue: int, createdBy: string, description: string, metadata: Option<Metadata>)

  /** `ProductMapper.toOrm` on a product's fields. */
  function ProductToRow(d: ProductData): (row: ProductRow)
    ensures row.id == d.id && row.name == d.name && row.cost == d.cost.cents
    ensures row.amountAvailable == d.amountAvailable && row.sellerId == d.sellerId
  {
    ProductRow(d.id, d.name, d.cost.cents, d.amountAvailable, d.sellerId)
  }

  /** `ProductMapper.toOrm`. */
  function ToOrm(p: Product): (row: ProductRow)
    reads p
    ensures row == ProductToRow(p.Data())
  {
    ProductRow(p.id, p.name, p.cost.cents, p.amountAvailable, p.sellerId)
  }

  /**
    What `ProductMapper.toDomain` builds from a row: the arguments of
    `Product.create` are evaluated left to right (id, cost, seller) and then
    `create` refuses a negative stock.
   */
  function ProductFromRow(row: ProductRow): (r: Result<ProductData, Exception>)
    ensures r.Ok? <==>
              UuidShaped(row.id) && row.cost >= 0 && UuidShaped(row.sellerId) && row.amountAvailable >= 0
    ensures r.Ok? ==> ProductToRow(r.value) == row
    ensures UuidShaped(row.id) && row.cost >= 0 && UuidShaped(row.sellerId) && row.amountAvailable < 0 ==>
              r == Err(PlainError("Amount available cannot be negative"))
  {
    var id :- ProductIdFrom(row.id);
    var cost :- FromIntCents(row.cost, ValueObjects);
    var sellerId :- UserIdFrom(row.sellerId);
    if row.amountAvailable < 0 then Err(PlainError("Amount available cannot be negative"))
    else Ok(ProductData(id, row.name, cost, row.amountAvailable, sellerId))
  }

  /** `ProductMapper.toDomain`: the product `Product.create` builds from the row, or its error. */
  method ToDomain(row: ProductRow) returns (r: Result<Product, Exception>)
    ensures r.Ok? <==> ProductFromRow(row).Ok?
    ensures r.Err? ==> r.error == ProductFromRow(row).error
    ensures r.Ok? ==> fresh(r.value) && r.value.Data() == ProductFromRow(row).value
    ensures r.Ok? ==> r.value.uncommitted == [ProductCreated(r.value.id, r.value.name, r.value.cost,
                                                               r.value.amountAvailable, r.value.sellerId)]
  {
    var id := ProductIdFrom(row.id);
    if id.Err? {
      return Err(id.error);
    }
    var cost := FromIntCents(row.cost, ValueObjects);
    if cost.Err? {
      return Err(cost.error);
    }
    var sellerId := UserIdFrom(row.sellerId);
    if sellerId.Err? {
      return Err(sellerId.error);
    }
    r := Product.Create(id.value, row.name, cost.value, row.amountAvailable, sellerId.value);
  }

  /** Storing a product and reading it back gives the same product. */
  lemma ProductRoundTrip(d: ProductData)
    ensures ProductFromRow(ProductToRow(d)) == Ok(d)
  {
  }

  /** `ProductEventMapper.toOrm`: the stored worth is the event's own; absent metadata becomes `NULL`. */
  function EventToRow(e: ProductEvent): (row: ProductEventRow)
    ensures row.id == e.id && row.productId == e.productId && row.eventType == e.eventType.Value()
    ensures row.quantity == e.quantity && row.unitPrice == e.unitPrice.cents && row.totalValue == e.totalValue.cents
    ensures row.createdBy == e.createdBy && row.description == e.description && row.metadata == e.metadata
  {
    ProductEventRow(e.id, e.productId, e.eventType.Value(), e.quantity, e.unitPrice.cents,
                    e.totalValue.cents, e.createdBy, e.description, e.metadata)
  }

  /**
    `ProductEventMapper.toDomain`: each column goes back through its value
    object's factory, left to right, and then through `ProductEvent.create`,
    which recomputes the worth from the unit price and the quantity; the
    stored `totalValue` column is never read.
   */
  function EventFromRow(row: ProductEventRow): (r: Result<ProductEvent, Exception>)
    ensures r.Ok? <==>
              && UuidShaped(row.id) && UuidShaped(row.productId)
              && (row.eventType == "top_up" || row.eventType == "withdraw")
              && row.unitPrice >= 0 && UuidShaped(row.createdBy) && row.quantity > 0
    ensures r.Ok? ==> r.value.WellFormed() && r.value.totalValue.cents == row.unitPrice * row.quantity
    ensures r.Ok? ==> EventToRow(r.value) == row.(totalValue := row.unitPrice * row.quantity)
  {
    var id :- ProductEventIdFrom(row.id);
    var productId :- ProductIdFrom(row.productId);
    var eventType :- ProductEventTypes.From(row.eventType);
    var unitPrice :- FromIntCents(row.unitPrice, ValueObjects);
    var createdBy :- UserIdFrom(row.createdBy);
    Create(id, productId, eventType, row.quantity, unitPrice, createdBy, row.description, row.metadata)
  }

  /** Storing an event `create` built and reading it back gives the same event. */
  lemma EventRoundTrip(e: ProductEvent)
    requires e.WellFormed()
    ensures EventFromRow(EventToRow(e)) == Ok(e)
  {
    ProductEventTypes.FromValue(e.eventType);
  }

  /** A row whose stored worth disagrees with its price and quantity is read back with the recomputed worth. */
  lemma EventWorthRecomputed(row: ProductEventRow)
    requires EventFromRow(row).Ok?
    ensures EventFromRow(row) == EventFromRow(row.(totalValue := 0))
  {
  }
}
