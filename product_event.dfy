/**
  The ProductEvent aggregate: an immutable audit record of one change to a
  product's stock, a top-up by its seller or a withdrawal by a buyer. Its
  worth is always the unit price times the quantity. The creation time is
  taken from the clock and is not part of this model; new ids are supplied
  by the caller.
 */
module ProductEvents {
  import opened Wrappers
  import opened Exceptions
  import opened Ids
  import opened MoneyValue
  import opened ProductEventTypes

  /** A metadata value: the model keeps strings, `null` and `undefined`. */
  datatype MetaValue = MStr(s: string) | MNull | MUndefined

  type Metadata = map<string, MetaValue>

  /** The one domain event a ProductEvent applies: its creation, with the values it was created with. */
  datatype ProductEventCreated = ProductEventCreated(
    eventId: ProductEventId, productId: ProductId, eventType: ProductEventType,
    quantity: int, unitPrice: Money, totalValue: Money, createdBy: UserId)

  datatype ProductEvent = ProductEvent(
    id: ProductEventId,
    productId: ProductId,
    eventType: ProductEventType,
    quantity: int,
    unitPrice: Money,
    totalValue: Money,
    createdBy: UserId,
    description: string,
    metadata: Option<Metadata>,
    uncommitted: seq<ProductEventCreated>)
  {
    /** `isTopUp`. */
    predicate IsTopUp() {
      eventType.IsTopUp()
    }

    /** `isWithdraw`. */
    predicate IsWithdraw() {
      eventType.IsWithdraw()
    }

    /** What `create` guarantees of every event it builds. */
    predicate WellFormed() {
      && quantity > 0
      && totalValue.cents == unitPrice.cents * quantity
      && uncommitted == [ProductEventCreated(id, productId, eventType, quantity, unitPrice, totalValue, createdBy)]
    }

    /**
      `getInventoryImpact`: the signed change to the stock, `+quantity` for a
      top-up and `-quantity` for a withdrawal. For an event `create` built,
      the sign tells the type.
     */
    function InventoryImpact(): (impact: int)
      ensures impact == quantity || impact == -quantity
      ensures WellFormed() ==> (impact > 0 <==> IsTopUp()) && (impact < 0 <==> IsWithdraw())
    {
      if IsTopUp() then quantity else -quantity
    }
  }

  /**
    `ProductEvent.create`: a quantity of at most zero is refused; otherwise
    the fields are stored as given, the worth is computed and one
    ProductEventCreated is applied.
   */
  function Create(
    id: ProductEventId, productId: ProductId, eventType: ProductEventType, quantity: int,
    unitPrice: Money, createdBy: UserId, description: string, metadata: Option<Metadata>)
    : (r: Result<ProductEvent, Exception>)
    ensures r.Err? <==> quantity <= 0
    ensures r.Err? ==> r.error == PlainError("Quantity must be greater than zero")
    ensures r.Ok? ==> r.value.WellFormed()
    ensures r.Ok? ==>
              && r.value.id == id && r.value.productId == productId && r.value.eventType == eventType
              && r.value.quantity == quantity && r.value.unitPrice == unitPrice && r.value.createdBy == createdBy
              && r.value.description == description && r.value.metadata == metadata
  {
    if quantity <= 0 then Err(PlainError("Quantity must be greater than zero"))
    else
      var total := FromIntCents(unitPrice.cents * quantity, ValueObjects);
      var totalValue := total.value;
      Ok(ProductEvent(id, productId, eventType, quantity, unitPrice, totalValue, createdBy, description, metadata,
                      [ProductEventCreated(id, productId, eventType, quantity, unitPrice, totalValue, createdBy)]))
  }

  const TopUpDescription := "Product inventory top up"
  const WithdrawDescription := "Product purchased"

  /**
    `createTopUpEvent`: a top-up by the seller, described by default as a
    top-up and tagged as an inventory increase.
   */
  function CreateTopUpEvent(
    newId: ProductEventId, productId: ProductId, quantity: int, unitPrice: Money, sellerId: UserId,
    description: Option<string>)
    : (r: Result<ProductEvent, Exception>)
    ensures r.Ok? <==> quantity > 0
    ensures r.Ok? ==>
              && r.value.WellFormed() && r.value.id == newId && r.value.productId == productId
              && r.value.IsTopUp() && r.value.createdBy == sellerId && r.value.quantity == quantity
              && r.value.unitPrice == unitPrice
              && r.value.description == (if description.Some? then description.value else TopUpDescription)
              && r.value.metadata == Some(map["operation" := MStr("inventory_increase")])
  {
    var text := if description.Some? then description.value else TopUpDescription;
    Create(newId, productId, TopUp, quantity, unitPrice, sellerId, text, Some(map["operation" := MStr("inventory_increase")]))
  }

  /**
    `createWithdrawEvent`: a withdrawal by the buyer, tagged as an inventory
    decrease; an absent or empty purchase order id is stored as `null`.
   */
  function CreateWithdrawEvent(
    newId: ProductEventId, productId: ProductId, quantity: int, unitPrice: Money, buyerId: UserId,
    purchaseOrderId: Option<string>, description: Option<string>)
    : (r: Result<ProductEvent, Exception>)
    ensures r.Ok? <==> quantity > 0
    ensures r.Ok? ==>
              && r.value.WellFormed() && r.value.id == newId && r.value.productId == productId
              && r.value.IsWithdraw() && r.value.createdBy == buyerId && r.value.quantity == quantity
              && r.value.unitPrice == unitPrice
              && r.value.description == (if description.Some? then description.value else WithdrawDescription)
              && r.value.metadata.Some?
              && "operation" in r.value.metadata.value && "purchaseOrderId" in r.value.metadata.value
              && r.value.metadata.value["operation"] == MStr("inventory_decrease")
              && (r.value.metadata.value["purchaseOrderId"] == MNull <==>
                    purchaseOrderId.None? || purchaseOrderId.value == "")
              && (purchaseOrderId.Some? && purchaseOrderId.value != "" ==>
                    r.value.metadata.value["purchaseOrderId"] == MStr(purchaseOrderId.value))
  {
    var text := if description.Some? then description.value else WithdrawDescription;
    var order := if purchaseOrderId.Some? && purchaseOrderId.value != "" then MStr(purchaseOrderId.value) else MNull;
    Create(newId, productId, Withdraw, quantity, unitPrice, buyerId, text,
           Some(map["operation" := MStr("inventory_decrease"), "purchaseOrderId" := order]))
  }

  /** Every event is exactly one of a top-up and a withdrawal. */
  lemma TopUpOrWithdraw(e: ProductEvent)
    ensures e.IsTopUp() != e.IsWithdraw()
  {
    ExactlyOneType(e.eventType);
  }

  /** A top-up and a withdrawal of the same quantity cancel out in the stock. */
  lemma OppositeImpacts(t: ProductEvent, w: ProductEvent)
    requires t.IsTopUp() && w.IsWithdraw() && t.quantity == w.quantity
    ensures t.InventoryImpact() + w.InventoryImpact() == 0
  {
    TopUpOrWithdraw(w);
  }
}
