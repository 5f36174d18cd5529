/**
  The product handlers a seller drives (create, update, delete) and the
  product queries (one product, every product, a seller's products, both
  paginated). Command handlers load a copy of the product, change it and
  save it; queries read the store and change nothing. New product and event
  ids come from a random source, so they are parameters.
 */
module ProductHandlers {
  import opened Wrappers
  import opened Exceptions
  import opened Ids
  import opened MoneyValue
  import opened UserRoles
  import opened Users
  import opened Products
  import opened ProductEvents
  import opened Repositories
  import opened ProductEventHandlers
  import Text

  // ---- responses and pagination

  /** `ProductResponseDto`; timestamps are not modelled. */
  datatype ProductResponse = ProductResponse(id: string, name: string, cost: int, amountAvailable: int, sellerId: string)

  /** `ProductResponseDto.fromDomain`: the product's fields, the cost in cents. */
  function ResponseOf(d: ProductData): (dto: ProductResponse)
    ensures dto.id == d.id && dto.name == d.name && dto.cost == d.cost.cents
    ensures dto.amountAvailable == d.amountAvailable && dto.sellerId == d.sellerId
  {
    ProductResponse(d.id, d.name, d.cost.cents, d.amountAvailable, d.sellerId)
  }

  /** `products.map(fromDomain)`. */
  function Responses(ps: seq<ProductData>): (r: seq<ProductResponse>)
    ensures |r| == |ps|
    ensures forall i :: 0 <= i < |ps| ==> r[i] == ResponseOf(ps[i])
  {
    if |ps| == 0 then [] else [ResponseOf(ps[0])] + Responses(ps[1..])
  }

  /**
    `slice((page - 1) * limit, (page - 1) * limit + limit)`: the page-th run
    of `limit` items, shorter or empty past the end of the list.
   */
  function Page<T>(s: seq<T>, page: int, limit: int): (r: seq<T>)
    requires page >= 1 && limit >= 1
    ensures |r| <= limit
    ensures (page - 1) * limit >= |s| ==> r == []
    ensures (page - 1) * limit + limit <= |s| ==> |r| == limit
    ensures forall k :: 0 <= k < |r| ==> (page - 1) * limit + k < |s| && r[k] == s[(page - 1) * limit + k]
  {
    var start := (page - 1) * limit;
    if start >= |s| then []
    else if start + limit <= |s| then s[start..start + limit]
    else s[start..]
  }

  /** Every item of a list is on exactly one page: item `i` is at `i % limit` on page `i / limit + 1`. */
  lemma ItemOnItsPage<T>(s: seq<T>, i: int, limit: int)
    requires 0 <= i < |s| && limit >= 1
    ensures i % limit < |Page(s, i / limit + 1, limit)|
    ensures Page(s, i / limit + 1, limit)[i % limit] == s[i]
  {
    var page := i / limit + 1;
    assert (page - 1) * limit + i % limit == i;
    assert (page - 1) * limit <= i;
  }

  const InvalidProductId := "Invalid product ID format"

  // ---- GetProductHandler

  /**
    The get-product handler's `catch`: its own exceptions pass through, a
    malformed id becomes a 400 about the id format, anything else a generic
    400.
   */
  function GetCatch(e: Exception): (r: Exception)
    ensures e.Name() in {"ProductNotFoundException", "BadRequestException"} ==> r == e
    ensures e.Name() !in {"ProductNotFoundException", "BadRequestException"} ==>
              r == BadRequest(if Text.Contains(e.message, InvalidUuid) then InvalidProductId else "Failed to retrieve product")
  {
    if e.Name() in {"ProductNotFoundException", "BadRequestException"} then e
    else if Text.Contains(e.message, InvalidUuid) then BadRequest(InvalidProductId)
    else BadRequest("Failed to retrieve product")
  }

  /** `GetProductHandler.execute`: the stored product's fields, or why not. */
  function GetProduct(repo: ProductRepository, productId: string): (r: Result<ProductResponse, Exception>)
    reads repo
    ensures productId == "" ==> r == Err(BadRequest("Product ID is required"))
    ensures productId != "" && !UuidShaped(productId) ==> r == Err(BadRequest(InvalidProductId))
    ensures UuidShaped(productId) && repo.readFault.Some? ==> r == Err(GetCatch(repo.readFault.value))
    ensures UuidShaped(productId) && repo.readFault.None? && productId !in repo.products ==>
              r == Err(ProductNotFound(productId))
    ensures UuidShaped(productId) && repo.readFault.None? && productId in repo.products ==>
              r == Ok(ResponseOf(repo.products[productId]))
  {
    if productId == "" then Err(BadRequest("Product ID is required"))
    else
      var id := ProductIdFrom(productId);
      if id.Err? then Err(GetCatch(id.error))
      else if repo.readFault.Some? then Err(GetCatch(repo.readFault.value))
      else if id.value !in repo.products then Err(ProductNotFound(productId))
      else Ok(ResponseOf(repo.products[id.value]))
  }

  // ---- GetAllProductsHandler and GetProductsBySellerHandler

  /** The listing handlers' `catch`: a malformed seller id, or a generic failure. */
  function ListCatch(e: Exception): (r: Exception)
    ensures r == BadRequest(if Text.Contains(e.message, InvalidUuid) then "Invalid seller ID format" else "Failed to retrieve products")
  {
    if Text.Contains(e.message, InvalidUuid) then BadRequest("Invalid seller ID format")
    else BadRequest("Failed to retrieve products")
  }

  /** The products a listing pages through: the seller's when one is named, else all, newest first. */
  function Listing(repo: ProductRepository, sellerId: string): (r: Result<seq<ProductData>, Exception>)
    reads repo
    requires repo.Valid()
    ensures r.Ok? <==> (sellerId == "" || UuidShaped(sellerId)) && repo.readFault.None?
    ensures sellerId != "" && !UuidShaped(sellerId) ==> r == Err(UserIdFrom(sellerId).error)
    ensures r.Ok? ==> forall p :: p in r.value <==>
              p.id in repo.products && repo.products[p.id] == p && (sellerId != "" ==> p.sellerId == sellerId)
  {
    if sellerId != "" then
      var id :- UserIdFrom(sellerId);
      repo.FindBySellerId(id)
    else repo.FindAll()
  }

  /** The pagination guards the two listing handlers share. */
  function PageGuard(page: int, limit: int): (r: Option<Exception>)
    ensures r.None? <==> page >= 1 && 1 <= limit <= 100
    ensures page < 1 ==> r == Some(BadRequest("Page must be greater than 0"))
    ensures page >= 1 && !(1 <= limit <= 100) ==> r == Some(BadRequest("Limit must be between 1 and 100"))
  {
    if page < 1 then Some(BadRequest("Page must be greater than 0"))
    else if limit < 1 || limit > 100 then Some(BadRequest("Limit must be between 1 and 100"))
    else None
  }

  /**
    `GetAllProductsHandler.execute`: one page of the products (of one
    seller when `sellerId` is not empty), newest first.
   */
  function GetAllProducts(repo: ProductRepository, page: int, limit: int, sellerId: string)
    : (r: Result<seq<ProductResponse>, Exception>)
    reads repo
    requires repo.Valid()
    ensures PageGuard(page, limit).Some? ==> r == Err(PageGuard(page, limit).value)
    ensures PageGuard(page, limit).None? ==>
              (r.Ok? <==> (sellerId == "" || UuidShaped(sellerId)) && repo.readFault.None?)
    ensures PageGuard(page, limit).None? && sellerId != "" && !UuidShaped(sellerId) ==>
              r == Err(BadRequest("Invalid seller ID format"))
    ensures PageGuard(page, limit).None? && (sellerId == "" || UuidShaped(sellerId)) && repo.readFault.Some? ==>
              r == Err(ListCatch(repo.readFault.value))
    ensures r.Ok? ==> |r.value| <= limit
    ensures r.Ok? ==> forall d :: d in r.value ==>
              exists p :: p in repo.products.Values && d == ResponseOf(p) && (sellerId != "" ==> p.sellerId == sellerId)
    ensures r.Ok? ==> r.value == Responses(Page(Listing(repo, sellerId).value, page, limit))
  {
    var guard := PageGuard(page, limit);
    if guard.Some? then Err(guard.value)
    else
      var listed := Listing(repo, sellerId);
      if listed.Err? then Err(ListCatch(listed.error))
      else
        var shown := Page(listed.value, page, limit);
        ResponsesOfStored(repo, shown, sellerId);
        Ok(Responses(shown))
  }

  /** Each response on a page is that of a stored product, of the seller when one is named. */
  lemma ResponsesOfStored(repo: ProductRepository, shown: seq<ProductData>, sellerId: string)
    requires forall p :: p in shown ==>
               p.id in repo.products && repo.products[p.id] == p && (sellerId != "" ==> p.sellerId == sellerId)
    ensures forall d :: d in Responses(shown) ==>
              exists p :: p in repo.products.Values && d == ResponseOf(p) && (sellerId != "" ==> p.sellerId == sellerId)
  {
    var r := Responses(shown);
    forall d | d in r
      ensures exists p :: p in repo.products.Values && d == ResponseOf(p) && (sellerId != "" ==> p.sellerId == sellerId)
    {
      var i :| 0 <= i < |r| && r[i] == d;
      assert shown[i] in shown;
      assert repo.products[shown[i].id] in repo.products.Values;
    }
  }

  /** `GetProductsBySellerHandler.execute`: one page of a seller's products, newest first. */
  function GetProductsBySeller(repo: ProductRepository, sellerId: string, page: int, limit: int)
    : (r: Result<seq<ProductResponse>, Exception>)
    reads repo
    requires repo.Valid()
    ensures sellerId == "" ==> r == Err(BadRequest("Seller ID is required"))
    ensures sellerId != "" && PageGuard(page, limit).Some? ==> r == Err(PageGuard(page, limit).value)
    ensures sellerId != "" && PageGuard(page, limit).None? ==> (r.Ok? <==> UuidShaped(sellerId) && repo.readFault.None?)
    ensures r.Ok? ==> |r.value| <= limit
    ensures r.Ok? ==> forall d :: d in r.value ==>
              exists p :: p in repo.products.Values && d == ResponseOf(p) && p.sellerId == sellerId
  {
    if sellerId == "" then Err(BadRequest("Seller ID is required"))
    else
      var guard := PageGuard(page, limit);
      if guard.Some? then Err(guard.value)
      else
        var listed := Listing(repo, sellerId);
        if listed.Err? then Err(ListCatch(listed.error))
        else
          var shown := Page(listed.value, page, limit);
          ResponsesOfStored(repo, shown, sellerId);
          Ok(Responses(shown))
  }

  /** For a named seller the two listing handlers answer the same. */
  lemma SellerListingsAgree(repo: ProductRepository, sellerId: string, page: int, limit: int)
    requires repo.Valid() && sellerId != ""
    ensures GetProductsBySeller(repo, sellerId, page, limit) == GetAllProducts(repo, page, limit, sellerId)
  {
  }

  // ---- CreateProductHandler

  /** `CreateProductHandler`: a seller lists a new product, with its initial stock recorded as a top-up. */
  class CreateProductHandler {
    const products: ProductRepository
    const users: UserRepository
    const service: ProductEventService

    constructor (products: ProductRepository, users: UserRepository, service: ProductEventService)
      ensures this.products == products && this.users == users && this.service == service
    {
      this.products := products;
      this.users := users;
      this.service := service;
    }

    /** The handler's first three guards, in order. */
    static function Guard(name: string, cost: int, amountAvailable: int, sellerId: string): (r: Option<Exception>)
      ensures r.None? <==> name != "" && cost > 0 && amountAvailable >= 0 && sellerId != ""
      ensures name == "" || cost == 0 || sellerId == "" ==> r == Some(BadRequest("Product name, cost, and seller ID are required"))
      ensures name != "" && cost < 0 && sellerId != "" ==> r == Some(BadRequest("Product cost must be greater than zero"))
      ensures name != "" && cost > 0 && sellerId != "" && amountAvailable < 0 ==>
                r == Some(BadRequest("Amount available cannot be negative"))
    {
      if name == "" || cost == 0 || sellerId == "" then Some(BadRequest("Product name, cost, and seller ID are required"))
      else if cost <= 0 then Some(BadRequest("Product cost must be greater than zero"))
      else if amountAvailable < 0 then Some(BadRequest("Amount available cannot be negative"))
      else None
    }

    /**
      The checks before anything is written, in the handler's order: the
      three guards, the seller id, the seller's existence and role, and the
      duplicate name. `None` when the product may be created.
     */
    function Admission(name: string, cost: int, amountAvailable: int, sellerId: string): (r: Option<Exception>)
      reads users, products
      ensures r.None? <==>
                && Guard(name, cost, amountAvailable, sellerId).None? && UuidShaped(sellerId)
                && users.readFault.None? && sellerId in users.users && users.users[sellerId].role == Seller
                && products.readFault.None? && !products.HasName(sellerId, name)
      ensures Guard(name, cost, amountAvailable, sellerId).Some? ==> r == Guard(name, cost, amountAvailable, sellerId)
      ensures Guard(name, cost, amountAvailable, sellerId).None? && !UuidShaped(sellerId) ==> r == Some(UserIdFrom(sellerId).error)
      ensures Guard(name, cost, amountAvailable, sellerId).None? && UuidShaped(sellerId) && users.readFault.None? ==>
                && (sellerId !in users.users ==> r == Some(BadRequest("Seller not found")))
                && (sellerId in users.users && users.users[sellerId].role != Seller ==>
                      r == Some(BadRequest("Only sellers can create products")))
                && (sellerId in users.users && users.users[sellerId].role == Seller && products.readFault.None?
                      && products.HasName(sellerId, name) ==>
                      r == Some(Conflict("Product with this name already exists for this seller")))
    {
      var guard := Guard(name, cost, amountAvailable, sellerId);
      if guard.Some? then guard
      else if !UuidShaped(sellerId) then Some(UserIdFrom(sellerId).error)
      else if users.readFault.Some? then users.readFault
      else if sellerId !in users.users then Some(BadRequest("Seller not found"))
      else if users.users[sellerId].role != Seller then Some(BadRequest("Only sellers can create products"))
      else if products.readFault.Some? then products.readFault
      else if products.HasName(sellerId, name) then Some(Conflict("Product with this name already exists for this seller"))
      else None
    }

    /** The checks of `execute` up to the duplicate-name lookup, through the repositories. */
    method Admit(name: string, cost: int, amountAvailable: int, sellerId: string) returns (r: Option<Exception>)
      ensures r == Admission(name, cost, amountAvailable, sellerId)
    {
      var guard := Guard(name, cost, amountAvailable, sellerId);
      if guard.Some? {
        return guard;
      }
      var sellerIdValue := UserIdFrom(sellerId);
      if sellerIdValue.Err? {
        return Some(sellerIdValue.error);
      }
      var seller := users.FindById(sellerIdValue.value);
      if seller.Err? {
        return Some(seller.error);
      }
      if seller.value.None? {
        return Some(BadRequest("Seller not found"));
      }
      if !seller.value.value.CanManageProducts() {
        return Some(BadRequest("Only sellers can create products"));
      }
      var duplicate := products.FindBySellerIdAndName(sellerIdValue.value, name);
      if duplicate.Err? {
        return Some(duplicate.error);
      }
      if duplicate.value {
        return Some(Conflict("Product with this name already exists for this seller"));
      }
      return None;
    }

    /**
      `execute`: the product is saved before the initial top-up is
      recorded, so a failure to record it leaves the product listed.
     */
    method Execute(name: string, cost: int, amountAvailable: int, sellerId: string, newId: ProductId, newEventId: ProductEventId)
      returns (r: Result<ProductId, Exception>)
      requires products.Valid()
      modifies products, service.handler.events
      ensures products.Valid()
      ensures old(Admission(name, cost, amountAvailable, sellerId)).Some? ==>
                r == Err(old(Admission(name, cost, amountAvailable, sellerId)).value)
                && unchanged(products) && unchanged(service.handler.events)
      ensures old(Admission(name, cost, amountAvailable, sellerId)).None? && old(products.writeFault).Some? ==>
                r == Err(old(products.writeFault).value) && unchanged(products) && unchanged(service.handler.events)
      ensures old(Admission(name, cost, amountAvailable, sellerId)).None? && old(products.writeFault).None? ==>
                products.products == old(products.products)[newId := ProductData(newId, name, Money(cost), amountAvailable, sellerId)]
                && products.order == if newId in old(products.products) then old(products.order) else [newId] + old(products.order)
      ensures r.Ok? ==> r.value == newId
      ensures r.Ok? && amountAvailable == 0 ==> unchanged(service.handler.events)
      ensures r.Ok? && amountAvailable > 0 ==>
                && |service.handler.events.events| == |old(service.handler.events.events)| + 1
                && service.handler.events.events[1..] == old(service.handler.events.events)
                && var e := service.handler.events.events[0];
                   e.IsTopUp() && e.productId == newId && e.InventoryImpact() == amountAvailable
                   && e.unitPrice.cents == cost && e.createdBy == sellerId
                   && e.description == "Initial inventory for product: " + name
      ensures old(Admission(name, cost, amountAvailable, sellerId)).None? && old(products.writeFault).None? && r.Err? ==>
                && amountAvailable > 0 && old(service.handler.events.writeFault).Some?
                && r == Err(BadRequest(CreateFailed + old(service.handler.events.writeFault).value.message))
      ensures products.readFault == old(products.readFault) && products.writeFault == old(products.writeFault)
    {
      var admitted := Admit(name, cost, amountAvailable, sellerId);
      if admitted.Some? {
        return Err(admitted.value);
      }
      var sellerIdValue: UserId := sellerId;
      var created := Product.Create(newId, name, Money(cost), amountAvailable, sellerIdValue);
      var product := created.value;
      var saved := products.Save(product);
      if saved.Fail? {
        return Err(saved.error);
      }
      if amountAvailable > 0 {
        var description := "Initial inventory for product: " + product.name;
        TopUpBuildsTopUp(newId, amountAvailable, cost, sellerIdValue, description, newEventId);
        var recorded := service.CreateTopUpEvent(newId, amountAvailable, product.cost.cents, sellerId, description, newEventId);
        if recorded.Err? {
          return Err(recorded.error);
        }
      }
      return Ok(newId);
    }
  }

  // ---- UpdateProductHandler

  /**
    The update handler's `catch`: its own exceptions pass through, any
    message about a malformed UUID (of the product or of the seller) becomes
    a 400 about the product id, anything else a ProductUpdateException.
   */
  function UpdateCatch(e: Exception): (r: Exception)
    ensures e.Name() in {"ProductNotFoundException", "BadRequestException", "ForbiddenException"} ==> r == e
    ensures e.Name() !in {"ProductNotFoundException", "BadRequestException", "ForbiddenException"} ==>
              r == if Text.Contains(e.message, InvalidUuid) then BadRequest(InvalidProductId)
                   else ProductUpdate("Failed to update product: " + e.message)
  {
    if e.Name() in {"ProductNotFoundException", "BadRequestException", "ForbiddenException"} then e
    else if Text.Contains(e.message, InvalidUuid) then BadRequest(InvalidProductId)
    else ProductUpdate("Failed to update product: " + e.message)
  }

  /** The fields an update leaves: an empty name or an absent cost or stock keeps the old value. */
  function Updated(d: ProductData, name: string, cost: Option<int>, amountAvailable: Option<int>): (u: ProductData)
    requires cost.Some? ==> cost.value > 0
    requires amountAvailable.Some? ==> amountAvailable.value >= 0
    ensures u.id == d.id && u.sellerId == d.sellerId
    ensures u.name == (if name != "" then name else d.name)
    ensures u.cost.cents == (if cost.Some? then cost.value else d.cost.cents)
    ensures u.amountAvailable == (if amountAvailable.Some? then amountAvailable.value else d.amountAvailable)
  {
    d.(name := if name != "" then name else d.name,
       cost := if cost.Some? then Money(cost.value) else d.cost,
       amountAvailable := if amountAvailable.Some? then amountAvailable.value else d.amountAvailable)
  }

  /** Updating with nothing to change leaves a product as it was. */
  lemma EmptyUpdateKeeps(d: ProductData)
    ensures Updated(d, "", None, None) == d
  {
  }

  /** `UpdateProductHandler`: the owning seller renames, reprices or restocks a product. */
  class UpdateProductHandler {
    const products: ProductRepository

    constructor (products: ProductRepository)
      ensures this.products == products
    {
      this.products := products;
    }

    /** `execute`: `name` is empty when not given; `cost` and `amountAvailable` are `None` when not given. */
    method Execute(productId: string, sellerId: string, name: string, cost: Option<int>, amountAvailable: Option<int>)
      returns (r: Outcome<Exception>)
      requires products.Valid()
      modifies products
      ensures products.Valid()
      ensures r.Fail? ==> unchanged(products)
      ensures productId == "" || sellerId == "" ==> r == Fail(BadRequest("Product ID and seller ID are required"))
      ensures productId != "" && sellerId != "" && cost.Some? && cost.value <= 0 ==>
                r == Fail(BadRequest("Product cost must be greater than zero"))
      ensures productId != "" && sellerId != "" && (cost.Some? ==> cost.value > 0)
                && amountAvailable.Some? && amountAvailable.value < 0 ==>
                r == Fail(BadRequest("Amount available cannot be negative"))
      ensures productId != "" && sellerId != "" && (cost.Some? ==> cost.value > 0)
                && (amountAvailable.Some? ==> amountAvailable.value >= 0) ==>
                && (!UuidShaped(productId) || !UuidShaped(sellerId) ==> r == Fail(BadRequest(InvalidProductId)))
                && (UuidShaped(productId) && UuidShaped(sellerId) ==>
                      var stored := old(products.products);
                      && (products.readFault.Some? ==> r == Fail(UpdateCatch(products.readFault.value)))
                      && (products.readFault.None? && productId !in stored ==> r == Fail(ProductNotFound(productId)))
                      && (products.readFault.None? && productId in stored && stored[productId].sellerId != sellerId ==>
                            r == Fail(Forbidden("You can only update your own products")))
                      && (products.readFault.None? && productId in stored && stored[productId].sellerId == sellerId ==>
                            if products.writeFault.Some? then r == Fail(UpdateCatch(products.writeFault.value))
                            else
                              && r == Pass
                              && products.products == stored[productId := Updated(stored[productId], name, cost, amountAvailable)]
                              && products.order == old(products.order)))
      ensures products.readFault == old(products.readFault) && products.writeFault == old(products.writeFault)
    {
      if productId == "" || sellerId == "" {
        return Fail(BadRequest("Product ID and seller ID are required"));
      }
      if cost.Some? && cost.value <= 0 {
        return Fail(BadRequest("Product cost must be greater than zero"));
      }
      if amountAvailable.Some? && amountAvailable.value < 0 {
        return Fail(BadRequest("Amount available cannot be negative"));
      }
      var id := ProductIdFrom(productId);
      if id.Err? {
        return Fail(UpdateCatch(id.error));
      }
      var seller := UserIdFrom(sellerId);
      if seller.Err? {
        return Fail(UpdateCatch(seller.error));
      }
      var found := products.FindById(id.value);
      if found.Err? {
        return Fail(UpdateCatch(found.error));
      }
      if found.value.None? {
        return Fail(ProductNotFound(productId));
      }
      var product := found.value.value;
      if !product.CanBeUpdatedBy(seller.value) {
        return Fail(Forbidden("You can only update your own products"));
      }
      if name != "" {
        product.UpdateName(name);
      }
      if cost.Some? {
        var newCost := FromIntCents(cost.value, ValueObjects);
        product.UpdateCost(newCost.value);
      }
      if amountAvailable.Some? {
        // The stock was checked not to be negative, so this cannot fail.
        var updated := product.UpdateAmount(amountAvailable.value);
      }
      var saved := products.Save(product);
      if saved.Fail? {
        return Fail(UpdateCatch(saved.error));
      }
      return Pass;
    }
  }

  // ---- DeleteProductHandler

  /** The delete handler's `catch`: its own exceptions pass through, anything else becomes a ProductDeletionException. */
  function DeleteCatch(e: Exception): (r: Exception)
    ensures e.Name() in {"ProductNotFoundException", "BadRequestException", "ForbiddenException"} ==> r == e
    ensures e.Name() !in {"ProductNotFoundException", "BadRequestException", "ForbiddenException"} ==>
              r == ProductDeletion("Failed to delete product: " + e.message)
  {
    if e.Name() in {"ProductNotFoundException", "BadRequestException", "ForbiddenException"} then e
    else ProductDeletion("Failed to delete product: " + e.message)
  }

  /** `DeleteProductHandler`: the owning seller removes a product. */
  class DeleteProductHandler {
    const products: ProductRepository

    constructor (products: ProductRepository)
      ensures this.products == products
    {
      this.products := products;
    }

    /** `execute`. */
    method Execute(productId: string, sellerId: string) returns (r: Outcome<Exception>)
      requires products.Valid()
      modifies products
      ensures products.Valid()
      ensures r.Fail? ==> unchanged(products)
      ensures productId == "" || sellerId == "" ==> r == Fail(BadRequest("Product ID and seller ID are required"))
      ensures productId != "" && sellerId != "" && !UuidShaped(productId) ==>
                r == Fail(DeleteCatch(ProductIdFrom(productId).error))
      ensures productId != "" && UuidShaped(productId) && sellerId != "" && !UuidShaped(sellerId) ==>
                r == Fail(DeleteCatch(UserIdFrom(sellerId).error))
      ensures UuidShaped(productId) && UuidShaped(sellerId) ==>
                var stored := old(products.products);
                && (products.readFault.Some? ==> r == Fail(DeleteCatch(products.readFault.value)))
                && (products.readFault.None? && productId !in stored ==> r == Fail(ProductNotFound(productId)))
                && (products.readFault.None? && productId in stored && stored[productId].sellerId != sellerId ==>
                      r == Fail(Forbidden("You can only delete your own products")))
                && (products.readFault.None? && productId in stored && stored[productId].sellerId == sellerId ==>
                      if products.writeFault.Some? then r == Fail(DeleteCatch(products.writeFault.value))
                      else r == Pass && products.products == stored - {productId}
                           && products.order == Without(old(products.order), productId))
      ensures products.readFault == old(products.readFault) && products.writeFault == old(products.writeFault)
    {
      if productId == "" || sellerId == "" {
        return Fail(BadRequest("Product ID and seller ID are required"));
      }
      var id := ProductIdFrom(productId);
      if id.Err? {
        return Fail(DeleteCatch(id.error));
      }
      var seller := UserIdFrom(sellerId);
      if seller.Err? {
        return Fail(DeleteCatch(seller.error));
      }
      var found := products.FindById(id.value);
      if found.Err? {
        return Fail(DeleteCatch(found.error));
      }
      if found.value.None? {
        return Fail(ProductNotFound(productId));
      }
      if !found.value.value.CanBeUpdatedBy(seller.value) {
        return Fail(Forbidden("You can only delete your own products"));
      }
      var deleted := products.Delete(id.value);
      if deleted.Fail? {
        return Fail(DeleteCatch(deleted.error));
      }
      return Pass;
    }
  }
}
