/**
  The purchase command: a buyer spends part of the deposit on a product,
  gets the rest back in coins and the sale is recorded as a withdraw event.
  The handler saves the buyer, then the product, then records the event;
  the three writes are not atomic.

  `Purchase` says, on the contents of the three stores, what one call of the
  handler does; `PurchaseProductHandler.Execute` is proved to do exactly that
  to the repositories.
 */
module PurchaseHandlers {
  import opened Wrappers
  import opened Exceptions
  import opened Ids
  import opened MoneyValue
  import opened UserRoles
  import opened Users
  import opened Products
  import opened ProductEvents
  import opened ChangeCalculator
  import opened PurchaseResults
  import opened Repositories
  import opened ProductEventHandlers

  /** The contents of the user, product and product-event stores, with the failures each would report. */
  datatype Stores = Stores(
    users: map<UserId, UserData>, userReadFault: Option<Exception>, userWriteFault: Option<Exception>,
    products: map<ProductId, ProductData>, order: seq<ProductId>,
    productReadFault: Option<Exception>, productWriteFault: Option<Exception>,
    events: seq<ProductEvent>, eventReadFault: Option<Exception>, eventWriteFault: Option<Exception>)

  /** What a purchase leaves in the stores and what it answers. */
  datatype Sale = Sale(after: Stores, result: Result<PurchaseResult, Exception>)

  /** Every stored user and product sits under its own id, as the repositories keep them. */
  predicate Keyed(st: Stores) {
    && (forall id :: id in st.users ==> st.users[id].id == id)
    && (forall id :: id in st.products ==> st.products[id].id == id)
  }

  /**
    The checks the handler makes before it changes anything, in its order:
    both ids, the buyer, the product, the price of the order, the funds,
    and the stock that `Product.purchase` checks. `None` when the purchase
    goes ahead.
   */
  function Admission(st: Stores, userId: string, productId: string, quantity: int): (r: Option<Exception>)
    ensures r.None? <==>
              && UuidShaped(userId) && UuidShaped(productId)
              && st.userReadFault.None? && userId in st.users && st.users[userId].role == Buyer
              && st.productReadFault.None? && productId in st.products
              && st.products[productId].amountAvailable > 0
              && 0 <= st.products[productId].cost.cents * quantity <= st.users[userId].deposit.cents
              && quantity <= st.products[productId].amountAvailable
    ensures !UuidShaped(userId) ==> r == Some(UserIdFrom(userId).error)
    ensures UuidShaped(userId) && !UuidShaped(productId) ==> r == Some(ProductIdFrom(productId).error)
    ensures UuidShaped(userId) && UuidShaped(productId) && st.userReadFault.None? ==>
              && (userId !in st.users ==> r == Some(PlainError("User not found")))
              && (userId in st.users && st.users[userId].role != Buyer ==>
                    r == Some(PlainError("Only buyers can purchase products")))
    ensures UuidShaped(userId) && UuidShaped(productId) && st.userReadFault.None? && userId in st.users
            && st.users[userId].role == Buyer && st.productReadFault.None? ==>
              && (productId !in st.products ==> r == Some(PlainError("Product not found")))
              && (productId in st.products && st.products[productId].amountAvailable == 0 ==>
                    r == Some(PlainError("Product is not available")))
              && (productId in st.products && st.products[productId].amountAvailable > 0 ==>
                    var total := st.products[productId].cost.cents * quantity;
                    && (total < 0 ==> r == Some(NegativeError(ValueObjects)))
                    && (0 <= total && st.users[userId].deposit.cents < total ==>
                          r == Some(PlainError("Insufficient funds")))
                    && (0 <= total <= st.users[userId].deposit.cents
                        && st.products[productId].amountAvailable < quantity ==>
                          r == Some(PlainError("Insufficient product quantity"))))
  {
    if !UuidShaped(userId) then Some(UserIdFrom(userId).error)
    else if !UuidShaped(productId) then Some(ProductIdFrom(productId).error)
    else if st.userReadFault.Some? then st.userReadFault
    else if userId !in st.users then Some(PlainError("User not found"))
    else if st.users[userId].role != Buyer then Some(PlainError("Only buyers can purchase products"))
    else if st.productReadFault.Some? then st.productReadFault
    else if productId !in st.products then Some(PlainError("Product not found"))
    else
      var item := st.products[productId];
      if item.amountAvailable == 0 then Some(PlainError("Product is not available"))
      else
        var total := FromIntCents(item.cost.cents * quantity, ValueObjects);
        if total.Err? then Some(total.error)
        else if st.users[userId].deposit.cents < total.value.cents then Some(PlainError("Insufficient funds"))
        else if item.amountAvailable < quantity then Some(PlainError("Insufficient product quantity"))
        else None
  }

  /** The withdraw the handler asks the event service for: no purchase order, the buyer's name in the description. */
  function WithdrawCommand(productId: ProductId, quantity: int, unitPrice: int, buyer: UserData): CreateProductEventCommand {
    CommandOf(buyer.id, WithdrawDto(productId, quantity, unitPrice, None, "Product purchased by " + buyer.username))
  }

  /**
    The two saves, buyer first, of the buyer and product as `execute` has
    changed them; the first failure stops it. The stores afterwards and the
    failure, if any.
   */
  function Saving(st: Stores, buyer: UserData, item: ProductData): (Stores, Option<Exception>) {
    if st.userWriteFault.Some? then (st, st.userWriteFault)
    else
      var paid := st.(users := st.users[buyer.id := buyer]);
      if st.productWriteFault.Some? then (paid, st.productWriteFault)
      else (paid.(products := st.products[item.id := item]), None)
  }

  /**
    The handler after its checks, on the loaded buyer and product: the
    buyer is saved with an empty deposit, then the product with its stock
    lowered, then the withdraw is recorded; each failure stops it where it
    happens.
   */
  function Settlement(st: Stores, buyer: UserData, item: ProductData, quantity: int, newEventId: ProductEventId): Sale
    requires 0 <= item.cost.cents * quantity <= buyer.deposit.cents && quantity <= item.amountAvailable
  {
    var saving := Saving(st, buyer.(deposit := Zero()), item.(amountAvailable := item.amountAvailable - quantity));
    if saving.1.Some? then Sale(saving.0, Err(saving.1.value))
    else Recording(saving.0, buyer, item, quantity, newEventId)
  }

  /**
    The last step of the settlement, on the stores after both saves: the
    withdraw is recorded and the buyer gets the change, or the event
    service's failure is the answer.
   */
  function Recording(st: Stores, buyer: UserData, item: ProductData, quantity: int, newEventId: ProductEventId): Sale
    requires 0 <= item.cost.cents * quantity <= buyer.deposit.cents
  {
    var command := WithdrawCommand(item.id, quantity, item.cost.cents, buyer);
    var recorded := CreateResult(command, newEventId, st.eventWriteFault);
    if recorded.Err? then Sale(st, Err(recorded.error))
    else
      var total := item.cost.cents * quantity;
      Sale(st.(events := [BuildEvent(command, newEventId).value] + st.events),
           Ok(PurchaseResult(total, [PurchasedItem(item.name, quantity)], Greedy(buyer.deposit.cents - total, Denominations))))
  }

  /** When a save fails, the settlement stops there with that failure. */
  lemma SettlementStops(st: Stores, buyer: UserData, item: ProductData, quantity: int, newEventId: ProductEventId)
    requires 0 <= item.cost.cents * quantity <= buyer.deposit.cents && quantity <= item.amountAvailable
    requires Saving(st, buyer.(deposit := Zero()), item.(amountAvailable := item.amountAvailable - quantity)).1.Some?
    ensures var saving := Saving(st, buyer.(deposit := Zero()), item.(amountAvailable := item.amountAvailable - quantity));
            Settlement(st, buyer, item, quantity, newEventId) == Sale(saving.0, Err(saving.1.value))
  {
  }

  /** When both saves go through, the settlement is the recording on the saved stores. */
  lemma SettlementRecords(st: Stores, buyer: UserData, item: ProductData, quantity: int, newEventId: ProductEventId)
    requires 0 <= item.cost.cents * quantity <= buyer.deposit.cents && quantity <= item.amountAvailable
    requires Saving(st, buyer.(deposit := Zero()), item.(amountAvailable := item.amountAvailable - quantity)).1.None?
    ensures var saving := Saving(st, buyer.(deposit := Zero()), item.(amountAvailable := item.amountAvailable - quantity));
            Settlement(st, buyer, item, quantity, newEventId) == Recording(saving.0, buyer, item, quantity, newEventId)
  {
  }

  /** One call of the handler, as written: the checks, then the settlement. */
  function Purchase(st: Stores, userId: string, productId: string, quantity: int, newEventId: ProductEventId): Sale {
    var admission := Admission(st, userId, productId, quantity);
    if admission.Some? then Sale(st, Err(admission.value))
    else Settlement(st, st.users[userId], st.products[productId], quantity, newEventId)
  }

  /**
    What the buyer pays, what comes back and what is kept are the whole
    deposit: the coins returned are worth the rest rounded down to five
    cents, and only that remainder is neither paid nor returned.
   */
  lemma PurchaseConservesMoney(deposit: nat, totalCost: nat, items: seq<PurchasedItem>)
    requires totalCost <= deposit
    ensures var r := PurchaseResult(totalCost, items, Greedy(deposit - totalCost, Denominations));
            && r.totalCost + r.TotalChangeAmount() + (deposit - totalCost) % 5 == deposit
            && 0 <= deposit - r.totalCost - r.TotalChangeAmount() < 5
  {
    GreedyTotal(deposit - totalCost);
  }

  /**
    A purchase that succeeds sold at least one item of a product the buyer
    could afford: the stock drops by the quantity, the stored deposit is
    empty, the newest event is the buyer's withdraw of that quantity, and
    the price and the change account for the deposit up to less than five
    cents.
   */
  lemma PurchaseSucceeds(st: Stores, userId: string, productId: string, quantity: int, newEventId: ProductEventId)
    requires Keyed(st)
    requires Purchase(st, userId, productId, quantity, newEventId).result.Ok?
    ensures UuidShaped(userId) && userId in st.users && UuidShaped(productId) && productId in st.products
    ensures var s := Purchase(st, userId, productId, quantity, newEventId);
            var deposit := st.users[userId].deposit.cents;
            && 0 < quantity <= st.products[productId].amountAvailable
            && st.users[userId].role == Buyer
            && s.after.users == st.users[userId := st.users[userId].(deposit := Zero())]
            && s.after.products == st.products[productId := st.products[productId].(amountAvailable := st.products[productId].amountAvailable - quantity)]
            && |s.after.events| == |st.events| + 1 && s.after.events[1..] == st.events
            && s.after.events[0].IsWithdraw() && s.after.events[0].InventoryImpact() == -quantity
            && s.after.events[0].productId == productId && s.after.events[0].createdBy == userId
            && s.result.value.totalCost == st.products[productId].cost.cents * quantity
            && s.result.value.totalCost + s.result.value.TotalChangeAmount() <= deposit
            && deposit < s.result.value.totalCost + s.result.value.TotalChangeAmount() + 5
  ensures var s := Purchase(st, userId, productId, quantity, newEventId);
          && s.result.value.purchasedItems == [PurchasedItem(st.products[productId].name, quantity)]
          && s.result.value.change == Greedy(st.users[userId].deposit.cents - s.result.value.totalCost, Denominations)
          && |s.after.events| > 0
          && s.after.events[0].quantity == quantity
          && s.after.events[0].unitPrice.cents == st.products[productId].cost.cents
  {
    var buyer := st.users[userId];
    var item := st.products[productId];
    assert Admission(st, userId, productId, quantity).None?;
    var command := WithdrawCommand(productId, quantity, item.cost.cents, buyer);
    assert CreateResult(command, newEventId, st.eventWriteFault).Ok?;
    WithdrawBuildsWithdraw(productId, quantity, item.cost.cents, buyer.id, "Product purchased by " + buyer.username, newEventId);
    PurchaseConservesMoney(buyer.deposit.cents, item.cost.cents * quantity, [PurchasedItem(item.name, quantity)]);
  }

  /**
    The handler writes in three steps: a failure before the first save
    changes nothing, and a failure of the product's save leaves the buyer
    saved with an empty deposit and the product as it was.
   */
  lemma PurchaseWritesInOrder(st: Stores, userId: string, productId: string, quantity: int, newEventId: ProductEventId)
    ensures var s := Purchase(st, userId, productId, quantity, newEventId);
            && (Admission(st, userId, productId, quantity).Some? ==>
                  s == Sale(st, Err(Admission(st, userId, productId, quantity).value)))
            && (Admission(st, userId, productId, quantity).None? && st.userWriteFault.Some? ==>
                  s == Sale(st, Err(st.userWriteFault.value)))
            && (Admission(st, userId, productId, quantity).None? && st.userWriteFault.None? && st.productWriteFault.Some? ==>
                  && s.result == Err(st.productWriteFault.value)
                  && s.after == st.(users := st.users[st.users[userId].id := st.users[userId].(deposit := Zero())]))
            && (s.after.events == st.events || |s.after.events| == |st.events| + 1)
  {
  }

  /**
    As written, an order of zero items passes every check, so the buyer's
    deposit is emptied and saved, and only then does the event service
    refuse the withdraw: the answer is an error and no change is handed back.
   */
  lemma ZeroQuantityForfeitsDeposit(st: Stores, userId: string, productId: string, newEventId: ProductEventId)
    requires Keyed(st)
    requires Admission(st, userId, productId, 0).None?
    requires st.userWriteFault.None? && st.productWriteFault.None?
    ensures UuidShaped(userId) && userId in st.users
    ensures var s := Purchase(st, userId, productId, 0, newEventId);
            && s.result == Err(BadRequest(RequiredFields))
            && userId in s.after.users && s.after.users[userId].deposit == Zero()
            && s.after.events == st.events
  {
    var buyer := st.users[userId];
    var item := st.products[productId];
    ZeroWithdrawRejected(productId, item.cost.cents, buyer.id, None, "Product purchased by " + buyer.username,
                         newEventId, st.eventWriteFault);
  }

  /** The message of the quantity check `PurchaseChecked` adds. */
  const QuantityRequired := "Quantity must be greater than zero"

  /** The handler with the quantity checked before anything else. */
  function PurchaseChecked(st: Stores, userId: string, productId: string, quantity: int, newEventId: ProductEventId): Sale {
    if quantity < 1 then Sale(st, Err(PlainError(QuantityRequired)))
    else Purchase(st, userId, productId, quantity, newEventId)
  }

  /**
    With the quantity checked first and stores that do not fail, a purchase
    either succeeds or changes nothing, and it succeeds exactly when the
    quantity is positive and the handler's checks pass.
   */
  lemma CheckedPurchaseIsAtomic(st: Stores, userId: string, productId: string, quantity: int, newEventId: ProductEventId)
    requires st.userWriteFault.None? && st.productWriteFault.None? && st.eventWriteFault.None?
    ensures var s := PurchaseChecked(st, userId, productId, quantity, newEventId);
            && (s.result.Ok? <==> quantity >= 1 && Admission(st, userId, productId, quantity).None?)
            && (s.result.Err? ==> s.after == st)
  {
    if quantity >= 1 && Admission(st, userId, productId, quantity).None? {
      var buyer := st.users[userId];
      var item := st.products[productId];
      WithdrawBuildsWithdraw(productId, quantity, item.cost.cents, buyer.id, "Product purchased by " + buyer.username, newEventId);
    }
  }

  /** `PurchaseProductHandler`. */
  class PurchaseProductHandler {
    const users: UserRepository
    const products: ProductRepository
    const service: ProductEventService

    constructor (users: UserRepository, products: ProductRepository, service: ProductEventService)
      ensures this.users == users && this.products == products && this.service == service
    {
      this.users := users;
      this.products := products;
      this.service := service;
    }

    /** The repositories hold exactly `st`. */
    predicate Holds(st: Stores)
      reads users, products, service.handler.events
    {
      && users.users == st.users && users.readFault == st.userReadFault && users.writeFault == st.userWriteFault
      && products.products == st.products && products.order == st.order
      && products.readFault == st.productReadFault && products.writeFault == st.productWriteFault
      && service.handler.events.events == st.events
      && service.handler.events.readFault == st.eventReadFault && service.handler.events.writeFault == st.eventWriteFault
    }

    /** The checks of `execute` through the repositories; on success, the loaded buyer and product. */
    method Admit(ghost st: Stores, userId: string, productId: string, quantity: int)
      returns (r: Option<Exception>, user: User?, product: Product?)
      requires Holds(st) && users.Valid() && products.Valid()
      ensures r == Admission(st, userId, productId, quantity)
      ensures r.None? ==>
                && user != null && fresh(user) && user.Data() == st.users[userId]
                && product != null && fresh(product) && product.Data() == st.products[productId]
    {
      var userIdValue := UserIdFrom(userId);
      if userIdValue.Err? {
        return Some(userIdValue.error), null, null;
      }
      var productIdValue := ProductIdFrom(productId);
      if productIdValue.Err? {
        return Some(productIdValue.error), null, null;
      }
      var foundUser := users.FindById(userIdValue.value);
      if foundUser.Err? {
        return Some(foundUser.error), null, null;
      }
      if foundUser.value.None? {
        return Some(PlainError("User not found")), null, null;
      }
      user := foundUser.value.value;
      if !user.CanBuyProduct() {
        return Some(PlainError("Only buyers can purchase products")), null, null;
      }
      var foundProduct := products.FindById(productIdValue.value);
      if foundProduct.Err? {
        return Some(foundProduct.error), null, null;
      }
      if foundProduct.value.None? {
        return Some(PlainError("Product not found")), null, null;
      }
      product := foundProduct.value.value;
      if !product.IsAvailable() {
        return Some(PlainError("Product is not available")), null, null;
      }
      var totalCost := FromIntCents(product.cost.cents * quantity, ValueObjects);
      if totalCost.Err? {
        return Some(totalCost.error), null, null;
      }
      if user.deposit.IsLessThan(totalCost.value) {
        return Some(PlainError("Insufficient funds")), null, null;
      }
      if product.amountAvailable < quantity {
        return Some(PlainError("Insufficient product quantity")), null, null;
      }
      return None, user, product;
    }

    /**
      The in-memory part of the sale: the product gives up `quantity` items,
      the buyer pays and the rest of the deposit is worked out in coins and
      taken out of the deposit.
     */
    static method Pay(user: User, product: Product, quantity: int) returns (totalCost: Money, change: seq<ChangeDenomination>)
      requires user.role == Buyer && product.amountAvailable > 0 && quantity <= product.amountAvailable
      requires 0 <= product.cost.cents * quantity <= user.deposit.cents
      modifies user, product
      ensures totalCost.cents == product.cost.cents * quantity
      ensures user.Data() == old(user.Data()).(deposit := Zero())
      ensures product.Data() == old(product.Data()).(amountAvailable := old(product.Data()).amountAvailable - quantity)
      ensures change == Greedy(old(user.deposit.cents) - totalCost.cents, Denominations)
    {
      totalCost := Money(product.cost.cents * quantity);
      // The checks before this cover every way `purchase` and `spendMoney` can fail.
      var purchased := product.Purchase(quantity);
      var spent := user.SpendMoney(totalCost);
      change := CalculateChange(user.deposit);
      var reset := user.ResetDeposit();
    }

    /** The two saves of `execute`, of the buyer holding `buyer` and the product holding `item`: they do what `Saving` says. */
    method Persist(ghost st: Stores, ghost buyer: UserData, ghost item: ProductData, user: User, product: Product)
      returns (o: Outcome<Exception>)
      requires Holds(st) && users.Valid() && products.Valid() && product.id in st.products
      requires user.Data() == buyer && product.Data() == item
      modifies users, products
      ensures users.Valid() && products.Valid()
      ensures Holds(Saving(st, buyer, item).0)
      ensures o == (if Saving(st, buyer, item).1.Some? then Fail(Saving(st, buyer, item).1.value) else Pass)
    {
      o := users.Save(user);
      if o.Pass? {
        o := products.Save(product);
      }
    }

    /**
      The part of `execute` after the checks, on the loaded buyer and
      product, which hold `buyer` and `item`: it does what `Settlement` says.
     */
    method Settle(ghost st: Stores, ghost buyer: UserData, ghost item: ProductData,
                  user: User, product: Product, quantity: int, newEventId: ProductEventId)
      returns (r: Result<PurchaseResult, Exception>)
      requires Holds(st) && users.Valid() && products.Valid() && item.id in st.products
      requires user.Data() == buyer && product.Data() == item
      requires buyer.role == Buyer && item.amountAvailable > 0 && quantity <= item.amountAvailable
      requires 0 <= item.cost.cents * quantity <= buyer.deposit.cents
      modifies user, product, users, products, service.handler.events
      ensures users.Valid() && products.Valid()
      ensures Holds(Settlement(st, buyer, item, quantity, newEventId).after)
      ensures r == Settlement(st, buyer, item, quantity, newEventId).result
    {
      var loadedBuyer, loadedItem := user.Data(), product.Data();
      var totalCost, change := Pay(user, product, quantity);
      r := Finish(st, loadedBuyer, loadedItem, user, product, quantity, totalCost.cents, change, newEventId);
    }

    /**
      The writes of `execute`, after the buyer loaded as `buyer` has paid for
      `quantity` items of the product loaded as `item`: it does what
      `Settlement` says.
     */
    method Finish(ghost st: Stores, buyer: UserData, item: ProductData, user: User, product: Product,
                  quantity: int, totalCost: int, change: seq<ChangeDenomination>, newEventId: ProductEventId)
      returns (r: Result<PurchaseResult, Exception>)
      requires Holds(st) && users.Valid() && products.Valid() && item.id in st.products
      requires 0 <= item.cost.cents * quantity <= buyer.deposit.cents && quantity <= item.amountAvailable
      requires user.Data() == buyer.(deposit := Zero())
      requires product.Data() == item.(amountAvailable := item.amountAvailable - quantity)
      requires totalCost == item.cost.cents * quantity && change == Greedy(buyer.deposit.cents - totalCost, Denominations)
      modifies users, products, service.handler.events
      ensures users.Valid() && products.Valid()
      ensures Holds(Settlement(st, buyer, item, quantity, newEventId).after)
      ensures r == Settlement(st, buyer, item, quantity, newEventId).result
    {
      ghost var saving := Saving(st, buyer.(deposit := Zero()), item.(amountAvailable := item.amountAvailable - quantity));
      var saved := Persist(st, buyer.(deposit := Zero()), item.(amountAvailable := item.amountAvailable - quantity), user, product);
      if saved.Fail? {
        SettlementStops(st, buyer, item, quantity, newEventId);
        return Err(saved.error);
      }
      SettlementRecords(st, buyer, item, quantity, newEventId);
      r := Record(saving.0, buyer, item, quantity, totalCost, change, newEventId);
    }

    /** The event service's part of `execute` and the answer built from it: it does what `Recording` says. */
    method Record(ghost st: Stores, buyer: UserData, item: ProductData, quantity: int, totalCost: int,
                  change: seq<ChangeDenomination>, newEventId: ProductEventId)
      returns (r: Result<PurchaseResult, Exception>)
      requires Holds(st)
      requires 0 <= item.cost.cents * quantity <= buyer.deposit.cents && totalCost == item.cost.cents * quantity
      requires change == Greedy(buyer.deposit.cents - totalCost, Denominations)
      modifies service.handler.events
      ensures Holds(Recording(st, buyer, item, quantity, newEventId).after)
      ensures r == Recording(st, buyer, item, quantity, newEventId).result
    {
      var recorded := service.CreateWithdrawEvent(item.id, quantity, item.cost.cents, buyer.id, None,
                                                  "Product purchased by " + buyer.username, newEventId);
      if recorded.Err? {
        return Err(recorded.error);
      }
      return Ok(PurchaseResult(totalCost, [PurchasedItem(item.name, quantity)], change));
    }

    /**
      `execute`, as written: on repositories holding `st`, it leaves them
      holding what `Purchase` says and answers the same.
     */
    method Execute(ghost st: Stores, userId: string, productId: string, quantity: int, newEventId: ProductEventId)
      returns (r: Result<PurchaseResult, Exception>)
      requires Holds(st) && users.Valid() && products.Valid()
      modifies users, products, service.handler.events
      ensures users.Valid() && products.Valid()
      ensures Holds(Purchase(st, userId, productId, quantity, newEventId).after)
      ensures r == Purchase(st, userId, productId, quantity, newEventId).result
    {
      var admitted, user, product := Admit(st, userId, productId, quantity);
      if admitted.Some? {
        return Err(admitted.value);
      }
      r := Settle(st, st.users[userId], st.products[productId], user, product, quantity, newEventId);
    }

    /** `execute` with the quantity checked first: it does what `PurchaseChecked` says. */
    method ExecuteChecked(ghost st: Stores, userId: string, productId: string, quantity: int, newEventId: ProductEventId)
      returns (r: Result<PurchaseResult, Exception>)
      requires Holds(st) && users.Valid() && products.Valid()
      modifies users, products, service.handler.events
      ensures users.Valid() && products.Valid()
      ensures Holds(PurchaseChecked(st, userId, productId, quantity, newEventId).after)
      ensures r == PurchaseChecked(st, userId, productId, quantity, newEventId).result
    {
      if quantity < 1 {
        return Err(PlainError(QuantityRequired));
      }
      r := Execute(st, userId, productId, quantity, newEventId);
    }
  }
}
