/**
  The Product aggregate: a seller's product with a price and a stock count.
  Purchases take stock away; the seller can rename, reprice and restock it.
  Its failures are plain Errors. Creation and update timestamps are not part
  of this model.
 */
module Products {
  import opened Wrappers
  import opened Exceptions
  import opened Ids
  import opened MoneyValue

  /** The domain events a Product applies, each carrying the product's state at that moment. */
  datatype ProductDomainEvent =
    | ProductCreated(productId: ProductId, name: string, cost: Money, amountAvailable: nat, sellerId: UserId)
    | ProductPurchased(productId: ProductId, name: string, cost: Money, amountAvailable: nat, sellerId: UserId)

  /** A product's observable fields. */
  datatype ProductData = ProductData(id: ProductId, name: string, cost: Money, amountAvailable: nat, sellerId: UserId)

  class Product {
    const id: ProductId
    var name: string
    var cost: Money
    var amountAvailable: nat
    const sellerId: UserId
    var uncommitted: seq<ProductDomainEvent>

    function Data(): ProductData
      reads this
    {
      ProductData(id, name, cost, amountAvailable, sellerId)
    }

    /** The private constructor: stores the fields and the events as given. */
    constructor Init(data: ProductData, events: seq<ProductDomainEvent>)
      ensures Data() == data && uncommitted == events
    {
      id := data.id;
      name := data.name;
      cost := data.cost;
      amountAvailable := data.amountAvailable;
      sellerId := data.sellerId;
      uncommitted := events;
    }

    /** `Product.create`: rejects negative stock, otherwise stores the fields and applies ProductCreated. */
    static method Create(id: ProductId, name: string, cost: Money, amountAvailable: int, sellerId: UserId)
      returns (r: Result<Product, Exception>)
      ensures r.Err? <==> amountAvailable < 0
      ensures r.Err? ==> r.error == PlainError("Amount available cannot be negative")
      ensures r.Ok? ==> fresh(r.value) && amountAvailable >= 0
      ensures r.Ok? ==> r.value.Data() == ProductData(id, name, cost, amountAvailable, sellerId)
      ensures r.Ok? ==> r.value.uncommitted == [ProductCreated(id, name, cost, amountAvailable, sellerId)]
    {
      if amountAvailable < 0 {
        return Err(PlainError("Amount available cannot be negative"));
      }
      var p := new Product.Init(
        ProductData(id, name, cost, amountAvailable, sellerId),
        [ProductCreated(id, name, cost, amountAvailable, sellerId)]);
      return Ok(p);
    }

    /** `isAvailable`: something is in stock. */
    predicate IsAvailable()
      reads this
      ensures IsAvailable() <==> amountAvailable > 0
    {
      amountAvailable > 0
    }

    /** `canBeUpdatedBy`: only the owning seller. */
    predicate CanBeUpdatedBy(userId: UserId)
      ensures CanBeUpdatedBy(userId) <==> userId == sellerId
    {
      sellerId == userId
    }

    /** `updateName`: replaces the name and nothing else. */
    method UpdateName(newName: string)
      modifies this
      ensures Data() == old(Data()).(name := newName) && uncommitted == old(uncommitted)
    {
      name := newName;
    }

    /** `updateCost`: replaces the cost and nothing else. */
    method UpdateCost(newCost: Money)
      modifies this
      ensures Data() == old(Data()).(cost := newCost) && uncommitted == old(uncommitted)
    {
      cost := newCost;
    }

    /**
      `purchase`: fails on an empty stock or a stock below `quantity`;
      otherwise takes `quantity` away and applies ProductPurchased with the
      new stock. The quantity is not required to be positive.
     */
    method Purchase(quantity: int) returns (o: Outcome<Exception>)
      modifies this
      ensures old(amountAvailable) == 0 ==> o == Fail(PlainError("Product is not available")) && unchanged(this)
      ensures 0 < old(amountAvailable) < quantity ==>
                o == Fail(PlainError("Insufficient product quantity")) && unchanged(this)
      ensures 0 < old(amountAvailable) && quantity <= old(amountAvailable) ==>
                && o == Pass
                && Data() == old(Data()).(amountAvailable := old(amountAvailable) - quantity)
                && uncommitted == old(uncommitted) + [ProductPurchased(id, name, cost, amountAvailable, sellerId)]
    {
      if !IsAvailable() {
        return Fail(PlainError("Product is not available"));
      }
      if amountAvailable < quantity {
        return Fail(PlainError("Insufficient product quantity"));
      }
      amountAvailable := amountAvailable - quantity;
      uncommitted := uncommitted + [ProductPurchased(id, name, cost, amountAvailable, sellerId)];
      return Pass;
    }

    /** `updateAmount`: rejects a negative stock, otherwise replaces the stock. */
    method UpdateAmount(newAmount: int) returns (o: Outcome<Exception>)
      modifies this
      ensures newAmount < 0 ==> o == Fail(PlainError("Amount cannot be negative")) && unchanged(this)
      ensures newAmount >= 0 ==>
                o == Pass && Data() == old(Data()).(amountAvailable := newAmount) && uncommitted == old(uncommitted)
    {
      if newAmount < 0 {
        return Fail(PlainError("Amount cannot be negative"));
      }
      amountAvailable := newAmount;
      return Pass;
    }
  }
}
