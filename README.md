# Vending machine core in Dafny

A model of the vending-machine back end. Sellers stock products, buyers
deposit coins, and a purchase spends a deposit, hands back change and leaves
a withdraw record in the product's audit trail.

The model follows the source layer by layer.

- **Value objects.** `Money` is a count of cents that is never negative.
  The source has two near-identical copies that differ only in the kind of
  error they raise. `UserRole` is buyer or seller. `ProductEventType` is
  top-up or withdraw. Ids are UUID-shaped strings.
- **Aggregates.** `User` and `Product` are classes. Their methods change
  fields in place and append to a list of uncommitted domain events.
  `ProductEvent` is an immutable record.
- **Change.** The greedy change calculator is a loop over the coins
  100, 50, 20, 10 and 5.
- **Ports.** Each repository port is a class holding a map, or a sequence
  for the append-only event log. Each has an optional read failure and an
  optional write failure that stand for the database's errors.
- **Mappers.** The product and product-event mappers translate between
  aggregates and rows.
- **Handlers.** The user handlers are deposit, reset deposit and create
  user. The product handlers are create, update, delete, get, list and list
  by seller. The product-event handlers create an event and list a
  product's events. The purchase handler is specified by functions on the
  stores' contents, and the methods are proved to do exactly what those
  functions say.
- **Idempotency.** The service is a key-value store. The decorator checks
  the key. The interceptor replays a cached answer to a repeated request.
- **Exception filter.** It turns any exception into an HTTP error response
  according to the layer the exception comes from.

Random ids, password hashes and salts, clock readings and the answer of the
handler behind the idempotency interceptor are parameters.

Where the specification and the code disagree, the model follows the code:

- The purchase handler does not check that the quantity is positive
  (see Findings).
- It raises plain errors such as "Only buyers can purchase products",
  not authorization errors.
- It saves the buyer before the product.
- `Product.create` does not check the cost. Only the create-product handler
  rejects a cost that is not positive.
- `ProductId.from` reports an invalid id with the message
  "Invalid UUID for UserId", as the code does.

## Model

Proof helpers have no row of their own: ChangeCalculator.AppendAssociates,
ChangeCalculator.LaterLines, PurchaseHandlers.SettlementStops,
PurchaseHandlers.SettlementRecords, ProductEventHandlers.ResponsesOfTake and
Ids.EventIdMessageNamesUuid. They only unfold definitions for the members that use them.

| member | source | states |
|---|---|---|
| MoneyValue.Money.Add | src/domain/shared/value-objects/money.vo.ts:51-53 | adding never fails; the cents of the sum are the sum of the cents |
| MoneyValue.Money.Subtract | src/domain/shared/value-objects/money.vo.ts:55-59 | succeeds exactly when the amount taken is at most the amount held. The result plus the amount taken is the original. Otherwise it fails with that copy's insufficient-funds error |
| MoneyValue.Zero | src/domain/shared/value-objects/money.vo.ts:23-25 | holds no cents |
| MoneyValue.Construct | src/domain/shared/value-objects/money.vo.ts:17-20 | accepts exactly the non-negative cent counts and keeps them; a negative count is the negative-amount error |
| MoneyValue.FromCents | src/domain/shared/value-objects/money.vo.ts:28-31 | accepts exactly the non-negative whole numbers and keeps the value. A fraction is the not-an-integer error; a negative whole number is the negative-amount error |
| MoneyValue.FromIntCents | src/domain/shared/value-objects/money.vo.ts:28-31 | on whole numbers: accepts exactly the non-negative ones, unchanged |
| MoneyValue.FromValidDenomination | src/domain/shared/value-objects/money.vo.ts:34-39 | accepts exactly the coins 5, 10, 20, 50 and 100; any other value is the invalid-denomination error naming it |
| MoneyValue.IsValidAmount | src/domain/shared/value-objects/money.vo.ts:41-43 | holds exactly for positive multiples of five |
| MoneyValue.Money.IsLessThan | src/domain/shared/value-objects/money.vo.ts:61-63 | holds exactly when this amount has fewer cents than the other |
| MoneyValue.LessThanIffSubtractFails | src/domain/shared/value-objects/money.vo.ts:55-63 | an amount is less than another exactly when subtracting the other from it fails; of two different amounts exactly one is the lesser |
| MoneyValue.AddCommutative | src/domain/shared/value-objects/money.vo.ts:51-53 | the order of the operands does not change a sum |
| MoneyValue.AddAssociative | src/domain/shared/value-objects/money.vo.ts:51-53 | the grouping of the operands does not change a sum |
| MoneyValue.AddThenSubtract | src/domain/shared/value-objects/money.vo.ts:51-59 | subtracting what was just added gives back the original amount |
| MoneyValue.CopiesAgree | src/domain/shared/value-object/money.vo.ts:27-62 | both copies of `Money` accept the same inputs of `fromCents`, `fromValidDenomination` and `subtract`, and they produce the same values |
| MoneyValue.CopiesDifferInErrorKind | src/domain/shared/value-object/money.vo.ts:27-62 | the copies differ only in their failures. One raises domain exceptions, with code INSUFFICIENT_FUNDS for an overdraft. The other raises plain errors |
| Exceptions.UserCreation | src/application/user/exceptions/user-application.exceptions.ts:9-19 | an application exception with code USER_CREATION_FAILED and status 400, carrying the given message |
| Exceptions.UsernameAlreadyExists | src/application/user/exceptions/user-application.exceptions.ts:27-41 | an application exception with code USERNAME_ALREADY_EXISTS and status 409, whose message names the taken username |
| Exceptions.UserNotFound | src/application/user/exceptions/user-application.exceptions.ts:49-63 | an application exception with code USER_NOT_FOUND and status 404, whose message names the identifier looked for |
| Exceptions.UserAuthorization | src/application/user/exceptions/user-application.exceptions.ts:88-103 | an application exception with code USER_AUTHORIZATION_FAILED and status 403, whose message names the role and the refused action |
| Exceptions.ProductNotFound | src/application/product/exceptions/product-application.exceptions.ts:27-41 | an application exception with code PRODUCT_NOT_FOUND and status 404, whose message names the product id looked for |
| Exceptions.ProductUpdate | src/application/product/exceptions/product-application.exceptions.ts:49-59 | an application exception with code PRODUCT_UPDATE_FAILED and status 400, carrying the given message |
| Exceptions.ProductDeletion | src/application/product/exceptions/product-application.exceptions.ts:67-77 | an application exception with code PRODUCT_DELETION_FAILED and status 400, carrying the given message |
| Exceptions.DepositOperation | src/application/vending-machine/exceptions/vending-machine-application.exceptions.ts:27-37 | an application exception with code DEPOSIT_OPERATION_FAILED and status 400, carrying the given message |
| Exceptions.InvalidMoneyValue | src/domain/shared/exceptions/money-domain.exceptions.ts:9-19 | a domain exception with code INVALID_MONEY_VALUE, carrying the given message |
| Exceptions.InvalidCoinDenomination | src/domain/shared/exceptions/money-domain.exceptions.ts:27-41 | a domain exception with code INVALID_COIN_DENOMINATION, whose message names the refused coin and the five valid ones |
| Exceptions.InsufficientFunds | src/domain/shared/exceptions/money-domain.exceptions.ts:49-63 | a domain exception with code INSUFFICIENT_FUNDS, whose message names the available and the required cents |
| Exceptions.InvalidProductEventId | src/domain/product-event/value-objects/product-event-id.vo.ts:9-13 | a domain exception with code INVALID_PRODUCT_EVENT_ID, whose message quotes the refused value |
| Exceptions.NotFoundNamesItsTarget | src/application/user/exceptions/user-application.exceptions.ts:49-63 | two user-not-found errors are equal only for the same identifier, and likewise two product-not-found errors for the same product id |
| Ids.UserIdFrom | src/domain/user/value-objects/user-id.vo.ts:24-29 | accepts exactly the UUID-shaped strings, unchanged; any other string is a plain error whose message contains "Invalid UUID" |
| Ids.ProductIdFrom | src/domain/product/value-objects/product-id.vo.ts:24-29 | accepts exactly the UUID-shaped strings, unchanged; any other string is a plain error whose message contains "Invalid UUID" |
| Ids.ProductEventIdFrom | src/domain/product-event/value-objects/product-event-id.vo.ts:34-39 | accepts exactly the UUID-shaped strings, unchanged; any other string is a domain exception whose message contains "Invalid UUID" |
| UserRoles.UserRole.Value | src/domain/user/value-objects/user-role.vo.ts:45-47 | the text is "buyer" or "seller", and it is "buyer" exactly for the buyer role |
| UserRoles.UserRole.IsBuyer | src/domain/user/value-objects/user-role.vo.ts:38-40 | holds exactly for the buyer role |
| UserRoles.UserRole.IsSeller | src/domain/user/value-objects/user-role.vo.ts:41-43 | holds exactly for the seller role |
| UserRoles.From | src/domain/user/value-objects/user-role.vo.ts:26-31 | accepts exactly "buyer" and "seller", giving the role with that text; any other text is the "Unsupported role" error |
| UserRoles.ExactlyOneRole | src/domain/user/value-objects/user-role.vo.ts:38-43 | every role is a buyer or a seller, never both |
| UserRoles.FromValue | src/domain/user/value-objects/user-role.vo.ts:26-47 | parsing a role's text gives back that role |
| ProductEventTypes.ProductEventType.Value | src/domain/product-event/value-objects/product-event-type.vo.ts:46-48 | the text is "top_up" or "withdraw", and it is "top_up" exactly for a top-up |
| ProductEventTypes.ProductEventType.IsTopUp | src/domain/product-event/value-objects/product-event-type.vo.ts:38-40 | holds exactly for the top-up type |
| ProductEventTypes.ProductEventType.IsWithdraw | src/domain/product-event/value-objects/product-event-type.vo.ts:42-44 | holds exactly for the withdraw type |
| ProductEventTypes.From | src/domain/product-event/value-objects/product-event-type.vo.ts:27-32 | accepts exactly "top_up" and "withdraw", giving the type with that text; any other text is the invalid-type error |
| ProductEventTypes.ExactlyOneType | src/domain/product-event/value-objects/product-event-type.vo.ts:38-44 | every event type is a top-up or a withdraw, never both |
| ProductEventTypes.FromValue | src/domain/product-event/value-objects/product-event-type.vo.ts:27-48 | parsing a type's text gives back that type |
| Users.User.Create | src/domain/user/entities/user.entity.ts:19-27 | a new user has the given id, name and role and an empty deposit, and one UserCreated event is pending |
| Users.User.Restore | src/domain/user/entities/user.entity.ts:9-17 | a user rebuilt from stored data holds exactly that data and has no pending events |
| Users.User.CanBuyProduct | src/domain/user/entities/user.entity.ts:45-47 | holds exactly for buyers |
| Users.User.CanManageProducts | src/domain/user/entities/user.entity.ts:49-51 | holds exactly for sellers |
| Users.User.AddDeposit | src/domain/user/entities/user.entity.ts:53-60 | a seller is refused and nothing changes. For a buyer the deposit grows by the amount and a DepositAdded event is appended. A seller's deposit stays empty |
| Users.User.ResetDeposit | src/domain/user/entities/user.entity.ts:62-68 | a seller is refused and nothing changes; a buyer's deposit becomes zero and no event is appended |
| Users.User.SpendMoney | src/domain/user/entities/user.entity.ts:70-80 | a seller is refused; spending more than the deposit is "Insufficient funds" and nothing changes; otherwise the deposit drops by the amount |
| Users.ExactlyOneCapability | src/domain/user/entities/user.entity.ts:45-51 | every user can either buy products or manage them, never both |
| Products.Product.Init | src/domain/product/entities/product.entity.ts:9-19 | the product holds exactly the given data and pending events |
| Products.Product.Create | src/domain/product/entities/product.entity.ts:22-37 | fails exactly when the stock is negative, with "Amount available cannot be negative". Otherwise it gives a new product with the given fields and one ProductCreated event |
| Products.Product.IsAvailable | src/domain/product/entities/product.entity.ts:76-78 | holds exactly when some stock is left |
| Products.Product.CanBeUpdatedBy | src/domain/product/entities/product.entity.ts:80-82 | holds exactly for the owning seller |
| Products.Product.UpdateName | src/domain/product/entities/product.entity.ts:68-70 | only the name changes |
| Products.Product.UpdateCost | src/domain/product/entities/product.entity.ts:72-74 | only the cost changes |
| Products.Product.Purchase | src/domain/product/entities/product.entity.ts:84-95 | an empty stock is "not available" and an order above the stock is "Insufficient product quantity", both leaving the product unchanged. Otherwise the stock drops by the quantity and a ProductPurchased event is appended |
| Products.Product.UpdateAmount | src/domain/product/entities/product.entity.ts:97-102 | a negative amount is refused and nothing changes; otherwise only the stock changes |
| ProductEvents.ProductEvent.InventoryImpact | src/domain/product-event/entities/product-event.entity.ts:161-163 | the impact is plus or minus the quantity: positive exactly for a top-up and negative exactly for a withdraw |
| ProductEvents.Create | src/domain/product-event/entities/product-event.entity.ts:26-69 | fails exactly when the quantity is not positive, with "Quantity must be greater than zero". Otherwise the event is well formed, its total is unit price times quantity, and every field is as given |
| ProductEvents.CreateTopUpEvent | src/domain/product-event/entities/product-event.entity.ts:71-88 | succeeds exactly for a positive quantity, with a well-formed top-up event carrying the given id, product, seller, quantity and unit price, the default description when none is given and the inventory-increase tag |
| ProductEvents.CreateWithdrawEvent | src/domain/product-event/entities/product-event.entity.ts:90-111 | succeeds exactly for a positive quantity, with a well-formed withdraw event carrying the given id, product, buyer, quantity and unit price, the default description when none is given, the inventory-decrease tag, and the purchase order id when a non-empty one is given (null otherwise) |
| ProductEvents.TopUpOrWithdraw | src/domain/product-event/entities/product-event.entity.ts:153-159 | every event is a top-up or a withdraw, never both |
| ProductEvents.OppositeImpacts | src/domain/product-event/entities/product-event.entity.ts:161-163 | a top-up and a withdraw of the same quantity cancel out on the inventory |
| ChangeCalculator.GreedyStep | src/domain/vending-machine/service/change-calculator.service.ts:15-21 | one loop round: the change is this coin's line, if any, followed by the change of what is left |
| ChangeCalculator.EmitConserves | src/domain/vending-machine/service/change-calculator.service.ts:16-19 | the value of one coin's line plus what is left after it is what there was |
| ChangeCalculator.GreedyConserves | src/domain/vending-machine/service/change-calculator.service.ts:11-24 | the value of the change plus the cents left over is the amount |
| ChangeCalculator.RestKeepsResidue | src/domain/vending-machine/service/change-calculator.service.ts:16-19 | taking coins worth a multiple of five keeps the remainder modulo five |
| ChangeCalculator.LeftoverResidue | src/domain/vending-machine/service/change-calculator.service.ts:15-21 | with coins that are all multiples of five, the leftover has the amount's remainder modulo five |
| ChangeCalculator.LeftoverBelowLast | src/domain/vending-machine/service/change-calculator.service.ts:15-21 | the leftover is smaller than the smallest coin |
| ChangeCalculator.GreedyTotal | src/domain/vending-machine/service/change-calculator.service.ts:9-24 | the change is worth the amount rounded down to a multiple of five, and it is worth the whole amount exactly when the amount is a multiple of five |
| ChangeCalculator.GreedyShape | src/domain/vending-machine/service/change-calculator.service.ts:15-21 | every line uses one of the coins and holds at least one coin, and the lines come in strictly falling coin order |
| ChangeCalculator.GreedyOfZero | src/domain/vending-machine/service/change-calculator.service.ts:15-21 | no change is given for nothing |
| ChangeCalculator.FirstLine | src/domain/vending-machine/service/change-calculator.service.ts:16-18 | the line of the largest coin holds the amount divided by that coin, rounded down |
| ChangeCalculator.GreedyCountBounds | src/domain/vending-machine/service/change-calculator.service.ts:9-24 | the change is the fewest-coins kind: at most one 50, two 20s, one 10 and one 5 |
| ChangeCalculator.CalculateChange | src/domain/vending-machine/service/change-calculator.service.ts:11-24 | the loop gives the greedy breakdown, worth the amount less its remainder modulo five |
| PurchaseResults.PurchaseResult.TotalChangeAmount | src/application/product/dtos/purchase-result.dto.ts:77-81 | the fold over the change lines is the value of the change |
| PurchaseResults.PurchaseResult.TotalQuantity | src/application/product/dtos/purchase-result.dto.ts:88-92 | the fold over the items is the sum of their quantities |
| PurchaseResults.PurchaseResult.ChangeText | src/application/product/dtos/purchase-result.dto.ts:113-114 | the change clause is empty when there is no change; otherwise it is non-empty and ends in ")" |
| PurchaseResults.ItemTexts | src/application/product/dtos/purchase-result.dto.ts:109-110 | one "<quantity>x <name>" line per item, each ending with its item's name |
| PurchaseResults.PurchaseResult.Head | src/application/product/dtos/purchase-result.dto.ts:116 | the summary before the change tail starts with "Purchase: " and its last character is the "s" of " cents" |
| PurchaseResults.PurchaseResult.ToString | src/application/product/dtos/purchase-result.dto.ts:108-117 | the summary is non-empty and ends in ")" exactly when change is given; without change it is the purchase and total text alone |
| PurchaseResults.ToStringMentionsChange | src/application/product/dtos/purchase-result.dto.ts:108-117 | the summary of a result with change ends with " (Change: N cents)", N being the value of the change |
| PurchaseResults.FoldChangeIsSum | src/application/product/dtos/purchase-result.dto.ts:77-81 | the running fold of the change lines equals its start plus their value |
| PurchaseResults.FoldQuantityIsSum | src/application/product/dtos/purchase-result.dto.ts:88-92 | the running fold of the items equals its start plus their quantities |
| PurchaseResults.SumPositive | src/application/product/dtos/purchase-result.dto.ts:99-101 | change made of real coins is worth something exactly when it has a line |
| PurchaseResults.HasChangeIffPositive | src/application/product/dtos/purchase-result.dto.ts:99-101 | for greedy change, `hasChange` holds exactly when some change is due, at least five cents |
| Mappers.ProductToRow | src/infrastructure/database/mappers/product.mapper.ts:40-50 | the row carries the product's id, name, cost in cents, stock and seller |
| Mappers.ToOrm | src/infrastructure/database/mappers/product.mapper.ts:40-50 | `toOrm` on a product object is the row of its data |
| Mappers.ProductFromRow | src/infrastructure/database/mappers/product.mapper.ts:22-32 | a row is accepted exactly when its ids are UUIDs, its cost is not negative and its stock is not negative; an accepted row maps back to itself |
| Mappers.ToDomain | src/infrastructure/database/mappers/product.mapper.ts:22-32 | `toDomain` builds a new product holding the accepted row's data, or fails as `ProductFromRow` does |
| Mappers.ProductRoundTrip | src/infrastructure/database/mappers/product.mapper.ts:22-50 | reading back the row of any product gives the same product |
| Mappers.EventToRow | src/infrastructure/database/mappers/product-event.mapper.ts:24-37 | the row carries every field of the event, the type as its text and the money in cents |
| Mappers.EventFromRow | src/infrastructure/database/mappers/product-event.mapper.ts:11-22 | a row is accepted exactly when its ids, type, quantity and price are valid. The event is well formed, and its total is recomputed as price times quantity |
| Mappers.EventRoundTrip | src/infrastructure/database/mappers/product-event.mapper.ts:11-37 | reading back the row of a well-formed event gives the same event |
| Mappers.EventWorthRecomputed | src/infrastructure/database/mappers/product-event.mapper.ts:11-22 | the stored total value of a row has no effect on the event read back |
| Repositories.UserRepository.FindById | src/domain/user/repositories/user.irepository.ts:17 | fails with the read failure. Otherwise it finds a user exactly when the id is stored, and the user holds the stored data |
| Repositories.UserRepository.FindByUsername | src/domain/user/repositories/user.irepository.ts:24 | fails with the read failure; otherwise it finds a user exactly when one has that name, and returns one with that name |
| Repositories.UserRepository.Save | src/domain/user/repositories/user.irepository.ts:30 | fails with the write failure and changes nothing; otherwise it stores the user's data under its id |
| Repositories.CredentialRepository.Save | src/domain/user/repositories/user-credential.irepository.ts:29 | fails with the write failure and changes nothing; otherwise it stores the credential under its user |
| Repositories.Without | src/infrastructure/database/repositories/product.repository.ts:169-177 | removes exactly the given id from the listing order |
| Repositories.WithoutDistinct | src/infrastructure/database/repositories/product.repository.ts:169-177 | removing an id keeps a listing order free of repeats |
| Repositories.OfSeller | src/infrastructure/database/repositories/product.repository.ts:58-75 | keeps exactly the products of that seller |
| Repositories.ProductRepository.Listed | src/infrastructure/database/repositories/product.repository.ts:95-112 | the listing holds each stored product once, and nothing else |
| Repositories.ProductRepository.FindById | src/domain/product/repositories/product.irepository.ts:18 | fails with the read failure. Otherwise it finds a product exactly when the id is stored. The product holds the stored data and, rebuilt through `Product.create` as the mapper does, one pending creation event |
| Repositories.ProductRepository.FindBySellerIdAndName | src/domain/product/repositories/product.irepository.ts:26 | fails with the read failure; otherwise it answers whether that seller has a product under that name |
| Repositories.ProductRepository.FindAll | src/domain/product/repositories/product.irepository.ts:51 | fails with the read failure; otherwise it lists every stored product once |
| Repositories.ProductRepository.FindBySellerId | src/domain/product/repositories/product.irepository.ts:33 | fails with the read failure; otherwise it lists exactly the stored products of that seller |
| Repositories.ProductRepository.Save | src/domain/product/repositories/product.irepository.ts:39 | fails with the write failure and changes nothing. Otherwise it stores the product's data under its id, and a new product goes first in the listing |
| Repositories.ProductRepository.Delete | src/infrastructure/database/repositories/product.repository.ts:169-177 | fails with the write failure. If no product has the id it fails with "Failed to delete product: Product not found". Otherwise it removes that product and takes its id out of the listing order, the other ids keeping their newest-first order |
| Repositories.OfProduct | src/domain/product-event/repositories/product-event.irepository.ts:30-47 | keeps exactly the events of that product, and of that type when one is given |
| Repositories.ProductEventRepository.Save | src/domain/product-event/repositories/product-event.irepository.ts:64 | fails with the write failure and changes nothing; otherwise it puts the event first in the log |
| Repositories.ProductEventRepository.FindByProductId | src/domain/product-event/repositories/product-event.irepository.ts:30 | fails with the read failure; otherwise it lists exactly the logged events of that product |
| Repositories.ProductEventRepository.FindByProductIdAndType | src/domain/product-event/repositories/product-event.irepository.ts:47 | fails with the read failure; otherwise it lists exactly the logged events of that product and type |
| UserHandlers.DepositCatch | src/application/user/handlers/deposit.handler.ts:44-56 | the handler's own exceptions pass through. Other domain exceptions become a deposit-operation error with their message, and anything else becomes "Failed to process deposit" |
| UserHandlers.DepositHandler.Execute | src/application/user/handlers/deposit.handler.ts:14-57 | checks, in order, the required fields, the user's existence, the buyer role and the coin. Then it adds the coin to the stored deposit and returns the new deposit. A failure changes nothing, and sellers keep empty deposits |
| UserHandlers.ResetDepositHandler.Execute | src/application/user/handlers/reset-deposit.handler.ts:18-51 | a missing id, a missing user and a seller are refused. Otherwise it empties the stored deposit and returns the deposit the buyer held. A failure changes nothing |
| UserHandlers.CreateUserCatch | src/application/user/handlers/create-user.handler.ts:85-103 | the handler's own exceptions pass through; anything else becomes a user-creation error |
| UserHandlers.CreateUserHandler.Execute | src/application/user/handlers/create-user.handler.ts:21-104 | refuses, in order, missing fields, a taken username and an unknown role. Otherwise it stores a new user with an empty deposit, then their credential, and returns the new id. A failed credential save leaves the user stored |
| ProductHandlers.ResponseOf | src/application/product/dtos/product-response.dto.ts:56-66 | the response carries the product's id, name, cost in cents, stock and seller |
| ProductHandlers.Responses | src/application/product/handlers/get-all-products.handler.ts:61 | one response per product, in order |
| ProductHandlers.Page | src/application/product/handlers/get-all-products.handler.ts:56-58 | a page holds at most `limit` items, taken in order from the page's start. A page past the end is empty, and a page inside the list is full |
| ProductHandlers.ItemOnItsPage | src/application/product/handlers/get-all-products.handler.ts:56-58 | every item appears on page `i / limit + 1` at position `i % limit` |
| ProductHandlers.GetCatch | src/application/product/handlers/get-product.handler.ts:52-66 | not-found and bad-request errors pass through; an invalid id becomes "Invalid product ID format", anything else "Failed to retrieve product" |
| ProductHandlers.GetProduct | src/application/product/handlers/get-product.handler.ts:35-67 | a missing id, a malformed id, a read failure and an unknown product give their errors; a stored product gives its response |
| ProductHandlers.ListCatch | src/application/product/handlers/get-all-products.handler.ts:62-67 | an invalid seller id becomes "Invalid seller ID format", anything else "Failed to retrieve products" |
| ProductHandlers.Listing | src/application/product/handlers/get-all-products.handler.ts:46-53 | without a seller it lists every stored product, and with a valid seller id exactly that seller's products. A malformed seller id or a read failure fails |
| ProductHandlers.PageGuard | src/application/product/handlers/get-all-products.handler.ts:35-41 | passes exactly when the page is at least 1 and the limit is between 1 and 100, and otherwise names the first check that failed |
| ProductHandlers.GetAllProducts | src/application/product/handlers/get-all-products.handler.ts:33-68 | the guards come first. A success is the requested page of the listing, at most `limit` stored products, all of the seller when one is given |
| ProductHandlers.ResponsesOfStored | src/application/product/handlers/get-all-products.handler.ts:56-61 | every response in a page is the response of a stored product, of the seller when one is given |
| ProductHandlers.GetProductsBySeller | src/application/product/handlers/get-product-by-seller.handler.ts:33-66 | a missing seller, a bad page and a bad limit are refused. Otherwise it succeeds exactly for a valid seller id and a readable store, with at most `limit` of that seller's products |
| ProductHandlers.SellerListingsAgree | src/application/product/handlers/get-product-by-seller.handler.ts:33-66 | once a seller is given, listing by seller answers exactly as listing all products filtered by that seller |
| ProductHandlers.CreateProductHandler.Guard | src/application/product/handlers/create-product.handler.ts:45-55 | passes exactly for a name, a positive cost, a stock that is not negative and a seller id, and otherwise names the first check that failed |
| ProductHandlers.CreateProductHandler.Admission | src/application/product/handlers/create-product.handler.ts:45-74 | passes exactly when the guard passes, the seller exists and is a seller, and has no product under that name. Otherwise it gives the first error |
| ProductHandlers.CreateProductHandler.Admit | src/application/product/handlers/create-product.handler.ts:45-74 | the checks the handler runs against the stores give exactly `Admission` |
| ProductHandlers.CreateProductHandler.Execute | src/application/product/handlers/create-product.handler.ts:43-105 | a refused product changes nothing. Otherwise the product is stored under its new id, which goes first in the listing order when it was not stored before, and the id is returned, with a top-up event logged exactly when the initial stock is positive |
| ProductHandlers.UpdateCatch | src/application/product/handlers/update-product.handler.ts:85-100 | not-found, bad-request and forbidden errors pass through. A malformed id becomes "Invalid product ID format", and anything else becomes "Failed to update product: " and its message |
| ProductHandlers.Updated | src/application/product/handlers/update-product.handler.ts:67-78 | only the fields that were given change; id and seller never change |
| ProductHandlers.EmptyUpdateKeeps | src/application/product/handlers/update-product.handler.ts:67-78 | an update that gives no field leaves the product as it was |
| ProductHandlers.UpdateProductHandler.Execute | src/application/product/handlers/update-product.handler.ts:38-101 | refuses, in order, missing ids, a cost that is not positive, a negative stock, malformed ids, an unknown product and a different seller. Otherwise it stores the updated product. A failure changes nothing |
| ProductHandlers.DeleteCatch | src/application/product/handlers/delete-product.handler.ts:60-70 | not-found, bad-request and forbidden errors pass through, and anything else, a malformed id included, becomes "Failed to delete product: " and its message |
| ProductHandlers.DeleteProductHandler.Execute | src/application/product/handlers/delete-product.handler.ts:37-71 | refuses missing or malformed ids, an unknown product and a different seller. Otherwise it removes the product and takes its id out of the listing order, the rest keeping their order. A failure changes nothing |
| ProductEventHandlers.BuildEvent | src/application/product-event/handlers/create-product-event.handler.ts:25-34 | the command gives an event exactly when its ids, type, quantity and price are acceptable, and the event carries the command's fields |
| ProductEventHandlers.CreateResult | src/application/product-event/handlers/create-product-event.handler.ts:19-43 | a missing field, an unacceptable event and a write failure give their bad requests; otherwise the result is the new id |
| ProductEventHandlers.BuildAgreesWithMapper | src/application/product-event/handlers/create-product-event.handler.ts:25-34 | building from a command and reading the matching row give the same event |
| ProductEventHandlers.CreateProductEventHandler.Execute | src/application/product-event/handlers/create-product-event.handler.ts:19-43 | answers as `CreateResult`. A success puts the built event first in the log, and a failure changes nothing |
| ProductEventHandlers.TopUpBuildsTopUp | src/application/product-event/services/product-event.service.ts:44-58 | a top-up request with a positive quantity builds the top-up event of the entity's factory |
| ProductEventHandlers.WithdrawBuildsWithdraw | src/application/product-event/services/product-event.service.ts:60-76 | a withdraw request with a positive quantity builds the withdraw event of the entity's factory |
| ProductEventHandlers.ZeroWithdrawRejected | src/application/product-event/services/product-event.service.ts:60-76 | a withdraw of zero items is refused before anything is logged |
| ProductEventHandlers.ProductEventService.CreateProductEvent | src/application/product-event/services/product-event.service.ts:17-28 | passes the request on as a command, answering and logging as the handler does |
| ProductEventHandlers.ProductEventService.CreateTopUpEvent | src/application/product-event/services/product-event.service.ts:44-58 | sends a top-up command, with the default description when none is given |
| ProductEventHandlers.ProductEventService.CreateWithdrawEvent | src/application/product-event/services/product-event.service.ts:60-76 | sends a withdraw command carrying the purchase order when one is given |
| ProductEventHandlers.EventResponse | src/application/product-event/dtos/product-event-response.dto.ts:40-53 | the response carries every field of the event, the type as its text and the money in cents |
| ProductEventHandlers.EventResponses | src/application/product-event/handlers/get-product-events.handler.ts:37 | one response per event, in order |
| ProductEventHandlers.Take | src/application/product-event/handlers/get-product-events.handler.ts:33-35 | the first `limit` events, or all of them when there are fewer |
| ProductEventHandlers.TypeFilter | src/application/product-event/handlers/get-product-events.handler.ts:25-30 | no type means every type; "top_up" and "withdraw" select that type; anything else is an error |
| ProductEventHandlers.MatchingEvents | src/application/product-event/handlers/get-product-events.handler.ts:21-30 | succeeds exactly for a valid product id, type and readable log, and gives exactly that product's events of that type |
| ProductEventHandlers.GetProductEvents | src/application/product-event/handlers/get-product-events.handler.ts:16-41 | a missing id is refused and every other failure is a bad request. A success is exactly the responses of the events the repository returns for that product and type filter, in the repository's order: all of them without a positive limit, and the first `limit` of them with one |
| PurchaseHandlers.Admission | src/application/product/handlers/purchase-product.handler.ts:23-48 | the purchase goes ahead exactly when both ids are valid, the buyer exists and is a buyer, the product exists and is in stock, the price of the order is covered by the deposit and the stock covers the order. Otherwise it gives the first failing check's error |
| PurchaseHandlers.PurchaseConservesMoney | src/application/product/handlers/purchase-product.handler.ts:44-77 | price plus change plus the remainder below five cents is the whole deposit |
| PurchaseHandlers.PurchaseSucceeds | src/application/product/handlers/purchase-product.handler.ts:22-78 | a successful purchase sold a positive quantity the stock covered to a buyer. The stock drops by the quantity and the stored deposit is empty. The newest log entry is the buyer's withdraw of that quantity of the product at its unit price. The result lists that product's name once with the quantity, costs price times quantity, and its change is the greedy coin split of the deposit less the cost, so cost and change account for the deposit to within five cents |
| PurchaseHandlers.PurchaseWritesInOrder | src/application/product/handlers/purchase-product.handler.ts:59-71 | a refused purchase or a failed first save changes nothing. A failed product save leaves the buyer saved with an empty deposit. At most one event is logged |
| PurchaseHandlers.ZeroQuantityForfeitsDeposit | src/application/product/handlers/purchase-product.handler.ts:44-71 | as written, an order of zero items empties and saves the buyer's deposit and then fails with nothing logged |
| PurchaseHandlers.CheckedPurchaseIsAtomic | src/application/product/handlers/purchase-product.handler.ts:22-78 | with the quantity checked first and stores that do not fail, a purchase succeeds exactly when the quantity is positive and the checks pass, and a failed one changes nothing |
| PurchaseHandlers.PurchaseProductHandler.Admit | src/application/product/handlers/purchase-product.handler.ts:23-48 | the checks the handler runs against the stores give exactly `Admission`, and on success the loaded buyer and product hold the stored data |
| PurchaseHandlers.PurchaseProductHandler.Pay | src/application/product/handlers/purchase-product.handler.ts:44-57 | the price is unit cost times quantity. The product loses the quantity and the buyer's deposit is emptied. The change is the greedy change of the deposit less the price |
| PurchaseHandlers.PurchaseProductHandler.Persist | src/application/product/handlers/purchase-product.handler.ts:60-61 | saves the buyer, then the product, and stops at the first failure |
| PurchaseHandlers.PurchaseProductHandler.Settle | src/application/product/handlers/purchase-product.handler.ts:50-77 | paying, saving and recording leave the stores and answer as `Settlement` says |
| PurchaseHandlers.PurchaseProductHandler.Finish | src/application/product/handlers/purchase-product.handler.ts:59-77 | saving and recording after payment leave the stores and answer as `Settlement` says |
| PurchaseHandlers.PurchaseProductHandler.Record | src/application/product/handlers/purchase-product.handler.ts:64-77 | logs the withdraw event and returns the result, or the event service's error |
| PurchaseHandlers.PurchaseProductHandler.Execute | src/application/product/handlers/purchase-product.handler.ts:22-78 | one call leaves the three stores as `Purchase` says and answers what it says |
| PurchaseHandlers.PurchaseProductHandler.ExecuteChecked | src/application/product/handlers/purchase-product.handler.ts:22-78 | the handler with the quantity checked first leaves the stores and answers as `PurchaseChecked` says |
| Idempotency.ValidKeyIsUuidV4 | src/application/common/services/idempotency.service.ts:66-71 | a key is valid exactly when it is an 8-4-4-4-12 group of hex digits in either case, with version digit 4 and variant digit 8, 9, a or b |
| Idempotency.ValidKeyHasNoColon | src/application/common/services/idempotency.service.ts:66-71 | a valid key holds no ':' |
| Idempotency.BuildRedisKey | src/application/common/services/idempotency.service.ts:81-83 | the storage key is "idempotency:", then the user id, then ':', then the key |
| Idempotency.RedisKeyInjective | src/application/common/services/idempotency.service.ts:81-83 | when the keys or the user ids hold no ':', equal storage keys come from equal pairs |
| Idempotency.LookupAfterStore | src/application/common/services/idempotency.service.ts:30-58 | reading back a stored pair gives the stored response. Its time to live is the one given, or 3600 seconds |
| Idempotency.LookupAfterRemove | src/application/common/services/idempotency.service.ts:30-39 | after a pair is removed, reading it finds nothing |
| Idempotency.OtherPairsUnaffected | src/application/common/services/idempotency.service.ts:50-58 | storing one pair leaves what every other pair reads unchanged, given colon-free keys or user ids |
| Idempotency.IdempotencyService.GetProcessedResponse | src/application/common/services/idempotency.service.ts:30-39 | answers what is stored under the pair's storage key, or nothing |
| Idempotency.IdempotencyService.StoreResponse | src/application/common/services/idempotency.service.ts:50-58 | the store is the old one with the response under the pair's storage key |
| Idempotency.IdempotencyService.RemoveIdempotencyKey | src/application/common/services/idempotency.service.ts:92-95 | the store is the old one without the pair's storage key |
| Idempotency.AcceptsVersion4Key | test/unit/application/common/services/idempotency.service.spec.ts:42-51 | "550e8400-e29b-41d4-a716-446655440000" is a valid key |
| Idempotency.RejectsMalformedKey | test/unit/application/common/services/idempotency.service.spec.ts:53-62 | "invalid-key-format" is not a valid key |
| Idempotency.RejectsVersion1Key | test/unit/application/common/services/idempotency.service.spec.ts:64-73 | "550e8400-e29b-11d4-a716-446655440000" is not a valid key |
| IdempotencyDecorator.IdempotencyKeyParam | src/presentation/decorators/idempotency.decorator.ts:16-40 | lets through exactly the string headers that are valid keys, unchanged. A missing or empty header is "required", another value is "must be a string", and an invalid string is "must be a valid UUID v4" |
| IdempotencyDecorator.AcceptedKeyIsScoped | src/presentation/decorators/idempotency.decorator.ts:31-39 | two accepted keys share a storage key only for the same key and the same user |
| IdempotencyInterceptors.KeyText | src/presentation/interceptors/idempotency.interceptor.ts:36-40 | a missing or empty header skips the cache, and any other header gives its text |
| IdempotencyInterceptors.SkipIsTransparent | src/presentation/interceptors/idempotency.interceptor.ts:39-42 | without a key or a user the handler's answer is returned and the cache is untouched |
| IdempotencyInterceptors.RepeatReplaysFirstResponse | src/presentation/interceptors/idempotency.interceptor.ts:45-68 | after a request with a key is answered, the same user's repeat with that key gets the same answer. The handler does not run and the cache is unchanged |
| IdempotencyInterceptors.FailureIsNotCached | src/presentation/interceptors/idempotency.interceptor.ts:56-68 | a handler error on a miss is passed on and not cached, so a retry runs the handler again |
| IdempotencyInterceptors.OtherUsersUnaffected | src/application/common/services/idempotency.service.ts:81-83 | an interception never changes what another user reads from the cache |
| IdempotencyInterceptors.IdempotencyInterceptor.Intercept | src/presentation/interceptors/idempotency.interceptor.ts:34-70 | the answer, whether the handler ran, and the new cache are exactly those of `Interception` |
| ExceptionFilter.BuildErrorResponse | src/presentation/middleware/exception-handler.middleware.ts:52-118 | copies the path, method and time. A server-side fault is a 500 whose message names no cause, and any other exception keeps its name and message |
| ExceptionFilter.ServerFaultsHideTheirMessage | src/presentation/middleware/exception-handler.middleware.ts:83-117 | the response to an infrastructure failure or an unknown error does not depend on its message |
| ExceptionFilter.StatusByLayer | src/presentation/middleware/exception-handler.middleware.ts:57-117 | application exceptions keep their status and code, and domain exceptions are 400 with their code. Infrastructure failures are 500 "Internal server error", HTTP exceptions keep their status under "HTTP_EXCEPTION", and the rest are 500 "UNKNOWN_ERROR" |
| ExceptionFilter.ApplicationExceptionStatuses | src/presentation/middleware/exception-handler.middleware.ts:57-68 | the handlers' application exceptions are answered 400, 403, 404 or 409 as each class declares |
| ExceptionFilter.HttpExceptionStatuses | src/presentation/middleware/exception-handler.middleware.ts:96-106 | bad request, not found, forbidden and conflict keep 400, 404, 403 and 409 |
| ExceptionFilter.Catch | src/presentation/middleware/exception-handler.middleware.ts:31-42 | the response gets the error body, and the body's status code as its HTTP status |

## Left out

- Numbers in commands are whole numbers. Only `Money.fromCents` takes a real, so that its rejection of fractions is modelled. Floating-point formatting (`Money.toString`) is not modelled.
- Time stamps (`createdAt`, `updatedAt`, the filter's and the cache's ISO times) are parameters or left out. Committing and publishing domain events is left out; events are a list of tags.
- Random ids, bcrypt salts and hashes are parameters.
- The `uuid` package's `validate` is a foreign call. It is approximated by `Ids.UuidShaped`, the 8-4-4-4-12 hex shape.
- The TypeORM repositories are modelled as in-memory ports. A database failure is an optional read fault and an optional write fault per store.
- Repositories.ProductRepository.FindBySellerIdAndName: the database lower-cases the name before comparing, and the model leaves the comparison abstract (`HasName`).
- The user mapper is not part of this model. It does not restore a stored deposit, so no round trip holds for it.
- `getProductAuditTrail` and the `getProductEvents` facade of the product-event service only dispatch. The controllers, application facades, dependency-injection modules, authentication and JWT handling are not modelled either.
- Redis is modelled as a map from storage keys to entries. Expiry after the time to live, JSON serialisation and the asynchronous store inside `tap` are not modelled, and neither are concurrent requests with the same key.
- IdempotencyDecorator.IdempotencyKeyParam: a header that is not a string (repeated values, say) is modelled as an abstract value with a text, not as the array Node builds.
- IdempotencyInterceptors.IdempotencyInterceptor.Intercept: the handler behind the interceptor is not modelled; its answer is a parameter.
- ExceptionFilter.Catch: logging and the exception's `context` field are not modelled.
- ChangeCalculator.CalculateChange: change for a remainder that is not a multiple of five is dropped, as in the code. The lost cents are proved to be below five, not ruled out.

## Findings

| source | as written | input that shows it | evidently intended | confidence | as-written member | corrected member |
|---|---|---|---|---|---|---|
| src/application/product/handlers/purchase-product.handler.ts:44-71 | the quantity is never checked: an order of 0 passes every check, the buyer's deposit is emptied and saved and the product saved, and only then is the withdraw event refused, by the event handler's required-fields check (src/application/product-event/handlers/create-product-event.handler.ts:20-22, which treats a quantity of 0 as missing) with "Product ID, event type, quantity, and created by are required", so no withdrawal is logged | a buyer with a deposit of 100 orders quantity 0 of an available product | an order of fewer than one item is refused before anything is saved | not executed | PurchaseHandlers.ZeroQuantityForfeitsDeposit | PurchaseHandlers.CheckedPurchaseIsAtomic |
