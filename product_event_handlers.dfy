/**
  Recording and listing product events: the command handler that builds a
  ProductEvent from a command and stores it, the application service that
  builds those commands for top-ups and withdrawals, and the query handler
  that lists a product's events. New event ids come from a random source,
  so they are parameters.
 */
module ProductEventHandlers {
  import opened Wrappers
  import opened Exceptions
  import opened Ids
  import opened MoneyValue
  import opened ProductEventTypes
  import opened ProductEvents
  import opened Repositories
  import Mappers

  /** `CreateProductEventCommand`; an empty string or a zero quantity is a missing field. */
  datatype CreateProductEventCommand = CreateProductEventCommand(
    productId: string, eventType: string, quantity: int, unitPrice: int, createdBy: string,
    description: string, metadata: Option<Metadata>)

  /** The handler's first guard: the four required fields are present. */
  predicate Complete(cmd: CreateProductEventCommand) {
    cmd.productId != "" && cmd.eventType != "" && cmd.quantity != 0 && cmd.createdBy != ""
  }

  /** Every field of a command that `ProductEvent.create` and the value objects accept. */
  predicate Acceptable(cmd: CreateProductEventCommand) {
    && UuidShaped(cmd.productId)
    && (cmd.eventType == "top_up" || cmd.eventType == "withdraw")
    && cmd.unitPrice >= 0
    && UuidShaped(cmd.createdBy)
    && cmd.quantity > 0
  }

  /**
    The `try` block of the handler: the arguments of `ProductEvent.create`
    are evaluated left to right, each through its value object.
   */
  function BuildEvent(cmd: CreateProductEventCommand, newId: ProductEventId): (r: Result<ProductEvent, Exception>)
    ensures r.Ok? <==> Acceptable(cmd)
    ensures r.Ok? ==>
              && r.value.WellFormed() && r.value.id == newId
              && r.value.productId == cmd.productId && r.value.eventType.Value() == cmd.eventType
              && r.value.quantity == cmd.quantity && r.value.unitPrice.cents == cmd.unitPrice
              && r.value.createdBy == cmd.createdBy && r.value.description == cmd.description
              && r.value.metadata == cmd.metadata
  {
    var productId :- ProductIdFrom(cmd.productId);
    var eventType :- ProductEventTypes.From(cmd.eventType);
    var unitPrice :- FromIntCents(cmd.unitPrice, ValueObjects);
    var createdBy :- UserIdFrom(cmd.createdBy);
    ProductEvents.Create(newId, productId, eventType, cmd.quantity, unitPrice, createdBy, cmd.description, cmd.metadata)
  }

  const RequiredFields := "Product ID, event type, quantity, and created by are required"
  const CreateFailed := "Failed to create product event: "

  /**
    What the handler answers for a command, given whether the store can
    be written: the missing-field error, the wrapped failure of building or
    storing the event, or the new event's id.
   */
  function CreateResult(cmd: CreateProductEventCommand, newId: ProductEventId, writeFault: Option<Exception>)
    : (r: Result<ProductEventId, Exception>)
    ensures r.Ok? <==> Complete(cmd) && Acceptable(cmd) && writeFault.None?
    ensures r.Ok? ==> r.value == newId
    ensures !Complete(cmd) ==> r == Err(BadRequest(RequiredFields))
    ensures Complete(cmd) && !Acceptable(cmd) ==> r == Err(BadRequest(CreateFailed + BuildEvent(cmd, newId).error.message))
    ensures Complete(cmd) && Acceptable(cmd) && writeFault.Some? ==> r == Err(BadRequest(CreateFailed + writeFault.value.message))
  {
    if !Complete(cmd) then Err(BadRequest(RequiredFields))
    else
      var built := BuildEvent(cmd, newId);
      if built.Err? then Err(BadRequest(CreateFailed + built.error.message))
      else if writeFault.Some? then Err(BadRequest(CreateFailed + writeFault.value.message))
      else Ok(newId)
  }

  /**
    The command handler accepts exactly the commands whose fields the
    persistence mapper would accept as a stored row, and builds the same
    event from them.
   */
  lemma BuildAgreesWithMapper(cmd: CreateProductEventCommand, newId: ProductEventId, totalValue: int)
    ensures BuildEvent(cmd, newId) == Mappers.EventFromRow(Mappers.ProductEventRow(
              newId, cmd.productId, cmd.eventType, cmd.quantity, cmd.unitPrice, totalValue,
              cmd.createdBy, cmd.description, cmd.metadata))
  {
  }

  /** `CreateProductEventHandler`. */
  class CreateProductEventHandler {
    const events: ProductEventRepository

    constructor (events: ProductEventRepository)
      ensures this.events == events
    {
      this.events := events;
    }

    /** `execute`: stores the built event as the newest one and answers its id. */
    method Execute(cmd: CreateProductEventCommand, newId: ProductEventId) returns (r: Result<ProductEventId, Exception>)
      modifies events
      ensures r == CreateResult(cmd, newId, old(events.writeFault))
      ensures r.Ok? ==> events.events == [BuildEvent(cmd, newId).value] + old(events.events)
      ensures r.Err? ==> unchanged(events)
      ensures events.readFault == old(events.readFault) && events.writeFault == old(events.writeFault)
    {
      if !Complete(cmd) {
        return Err(BadRequest(RequiredFields));
      }
      var built := BuildEvent(cmd, newId);
      if built.Err? {
        return Err(BadRequest(CreateFailed + built.error.message));
      }
      var saved := events.Save(built.value);
      if saved.Fail? {
        return Err(BadRequest(CreateFailed + saved.error.message));
      }
      return Ok(newId);
    }
  }

  /** `CreateProductEventDto`: what a caller of the service fills in. */
  datatype CreateProductEventDto = CreateProductEventDto(
    productId: string, eventType: string, quantity: int, unitPrice: int, description: string,
    metadata: Option<Metadata>)

  /** `createProductEvent`'s command: the DTO's fields and the creator. */
  function CommandOf(createdBy: string, dto: CreateProductEventDto): CreateProductEventCommand {
    CreateProductEventCommand(dto.productId, dto.eventType, dto.quantity, dto.unitPrice, createdBy,
                              dto.description, dto.metadata)
  }

  /** `description || fallback`: an absent or empty description gives way to the fallback. */
  function OrDefault(description: string, fallback: string): string {
    if description == "" then fallback else description
  }

  /** The DTO `createTopUpEvent` sends: no metadata. */
  function TopUpDto(productId: string, quantity: int, unitPrice: int, description: string): CreateProductEventDto {
    CreateProductEventDto(productId, "top_up", quantity, unitPrice, OrDefault(description, TopUpDescription), None)
  }

  /** The DTO `createWithdrawEvent` sends: the purchase order id as the only metadata entry, possibly undefined. */
  function WithdrawDto(productId: string, quantity: int, unitPrice: int, purchaseOrderId: Option<string>, description: string)
    : CreateProductEventDto
  {
    var order := if purchaseOrderId.Some? then MStr(purchaseOrderId.value) else MUndefined;
    CreateProductEventDto(productId, "withdraw", quantity, unitPrice, OrDefault(description, WithdrawDescription),
                          Some(map["purchaseOrderId" := order]))
  }

  /**
    A top-up the service sends for a valid product, price and seller with a
    positive quantity is built as a top-up by that seller that raises the
    stock by the quantity.
   */
  lemma TopUpBuildsTopUp(productId: ProductId, quantity: int, unitPrice: int, sellerId: UserId, description: string, newId: ProductEventId)
    requires quantity > 0 && unitPrice >= 0
    ensures var cmd := CommandOf(sellerId, TopUpDto(productId, quantity, unitPrice, description));
            && Complete(cmd) && BuildEvent(cmd, newId).Ok?
            && BuildEvent(cmd, newId).value.IsTopUp()
            && BuildEvent(cmd, newId).value.InventoryImpact() == quantity
            && BuildEvent(cmd, newId).value.createdBy == sellerId
            && BuildEvent(cmd, newId).value.description == (if description == "" then TopUpDescription else description)
  {
    var cmd := CommandOf(sellerId, TopUpDto(productId, quantity, unitPrice, description));
    var e := BuildEvent(cmd, newId).value;
    assert e.eventType.Value() == "top_up";
    ExactlyOneType(e.eventType);
  }

  /**
    A withdrawal the service sends for a valid product, price and buyer
    with a positive quantity is built as a withdrawal by that buyer that
    lowers the stock by the quantity; without a purchase order the metadata
    holds an undefined purchase order id and no operation tag.
   */
  lemma WithdrawBuildsWithdraw(productId: ProductId, quantity: int, unitPrice: int, buyerId: UserId, description: string, newId: ProductEventId)
    requires quantity > 0 && unitPrice >= 0
    ensures var cmd := CommandOf(buyerId, WithdrawDto(productId, quantity, unitPrice, None, description));
            && Complete(cmd) && BuildEvent(cmd, newId).Ok?
            && BuildEvent(cmd, newId).value.IsWithdraw()
            && BuildEvent(cmd, newId).value.InventoryImpact() == -quantity
            && BuildEvent(cmd, newId).value.createdBy == buyerId
            && BuildEvent(cmd, newId).value.quantity == quantity
            && BuildEvent(cmd, newId).value.unitPrice.cents == unitPrice
            && BuildEvent(cmd, newId).value.metadata == Some(map["purchaseOrderId" := MUndefined])
            && "operation" !in BuildEvent(cmd, newId).value.metadata.value
  {
    var cmd := CommandOf(buyerId, WithdrawDto(productId, quantity, unitPrice, None, description));
    var e := BuildEvent(cmd, newId).value;
    assert e.eventType.Value() == "withdraw";
    ExactlyOneType(e.eventType);
  }

  /** A withdrawal of zero items is turned away by the handler's first guard, whatever else it carries. */
  lemma ZeroWithdrawRejected(productId: string, unitPrice: int, buyerId: string, purchaseOrderId: Option<string>, description: string, newId: ProductEventId, writeFault: Option<Exception>)
    ensures CreateResult(CommandOf(buyerId, WithdrawDto(productId, 0, unitPrice, purchaseOrderId, description)), newId, writeFault)
              == Err(BadRequest(RequiredFields))
  {
  }

  /** `ProductEventApplicationService`: builds commands and hands them to the command handler. */
  class ProductEventService {
    const handler: CreateProductEventHandler

    constructor (handler: CreateProductEventHandler)
      ensures this.handler == handler
    {
      this.handler := handler;
    }

    /** `createProductEvent`: dispatches the DTO's command with the creator. */
    method CreateProductEvent(createdBy: string, dto: CreateProductEventDto, newId: ProductEventId)
      returns (r: Result<ProductEventId, Exception>)
      modifies handler.events
      ensures r == CreateResult(CommandOf(createdBy, dto), newId, old(handler.events.writeFault))
      ensures r.Ok? ==> handler.events.events == [BuildEvent(CommandOf(createdBy, dto), newId).value] + old(handler.events.events)
      ensures r.Err? ==> unchanged(handler.events)
      ensures handler.events.readFault == old(handler.events.readFault)
      ensures handler.events.writeFault == old(handler.events.writeFault)
    {
      r := handler.Execute(CommandOf(createdBy, dto), newId);
    }

    /** `createTopUpEvent`: a top-up by the seller. */
    method CreateTopUpEvent(productId: string, quantity: int, unitPrice: int, sellerId: string, description: string, newId: ProductEventId)
      returns (r: Result<ProductEventId, Exception>)
      modifies handler.events
      ensures r == CreateResult(CommandOf(sellerId, TopUpDto(productId, quantity, unitPrice, description)), newId, old(handler.events.writeFault))
      ensures r.Ok? ==>
                handler.events.events == [BuildEvent(CommandOf(sellerId, TopUpDto(productId, quantity, unitPrice, description)), newId).value] + old(handler.events.events)
      ensures r.Err? ==> unchanged(handler.events)
      ensures handler.events.readFault == old(handler.events.readFault)
      ensures handler.events.writeFault == old(handler.events.writeFault)
    {
      r := CreateProductEvent(sellerId, TopUpDto(productId, quantity, unitPrice, description), newId);
    }

    /** `createWithdrawEvent`: a withdrawal by the buyer. */
    method CreateWithdrawEvent(productId: string, quantity: int, unitPrice: int, buyerId: string, purchaseOrderId: Option<string>, description: string, newId: ProductEventId)
      returns (r: Result<ProductEventId, Exception>)
      modifies handler.events
      ensures r == CreateResult(CommandOf(buyerId, WithdrawDto(productId, quantity, unitPrice, purchaseOrderId, description)), newId, old(handler.events.writeFault))
      ensures r.Ok? ==>
                handler.events.events == [BuildEvent(CommandOf(buyerId, WithdrawDto(productId, quantity, unitPrice, purchaseOrderId, description)), newId).value] + old(handler.events.events)
      ensures r.Err? ==> unchanged(handler.events)
      ensures handler.events.readFault == old(handler.events.readFault)
      ensures handler.events.writeFault == old(handler.events.writeFault)
    {
      r := CreateProductEvent(buyerId, WithdrawDto(productId, quantity, unitPrice, purchaseOrderId, description), newId);
    }
  }

  /** `ProductEventResponseDto`: an event's fields as plain values; the creation time is not modelled. */
  datatype ProductEventResponse = ProductEventResponse(
    id: string, productId: string, eventType: string, quantity: int, unitPrice: int, totalValue: int,
    createdBy: string, description: string, metadata: Option<Metadata>)

  /** `ProductEventResponseDto.fromDomain`. */
  function EventResponse(e: ProductEvent): (d: ProductEventResponse)
    ensures d.id == e.id && d.productId == e.productId && d.eventType == e.eventType.Value()
    ensures d.quantity == e.quantity && d.unitPrice == e.unitPrice.cents && d.totalValue == e.totalValue.cents
    ensures d.createdBy == e.createdBy && d.description == e.description && d.metadata == e.metadata
  {
    ProductEventResponse(e.id, e.productId, e.eventType.Value(), e.quantity, e.unitPrice.cents, e.totalValue.cents,
                         e.createdBy, e.description, e.metadata)
  }

  /** `events.map(fromDomain)`. */
  function EventResponses(events: seq<ProductEvent>): (r: seq<ProductEventResponse>)
    ensures |r| == |events|
    ensures forall i :: 0 <= i < |events| ==> r[i] == EventResponse(events[i])
    ensures forall e :: e in events ==> EventResponse(e) in r
    ensures forall d :: d in r ==> exists e :: e in events && d == EventResponse(e)
  {
    if |events| == 0 then [] else [EventResponse(events[0])] + EventResponses(events[1..])
  }

  /** `events.slice(0, limit)` for a positive limit. */
  function Take<T>(s: seq<T>, limit: int): (r: seq<T>)
    requires limit > 0
    ensures |r| == if limit < |s| then limit else |s|
    ensures r <= s
    ensures forall x :: x in r ==> x in s
  {
    if limit < |s| then s[..limit] else s
  }

  /** Cutting the events and then mapping them is mapping them and then cutting. */
  lemma ResponsesOfTake(events: seq<ProductEvent>, limit: int)
    requires limit > 0
    ensures EventResponses(Take(events, limit)) == Take(EventResponses(events), limit)
  {
    var a, b := EventResponses(Take(events, limit)), Take(EventResponses(events), limit);
    assert |a| == |b|;
    forall i | 0 <= i < |a| ensures a[i] == b[i] {
      assert Take(events, limit)[i] == events[i];
    }
  }

  /** The query's event type filter: none when the string is empty, else a parsed type. */
  function TypeFilter(eventType: string): (r: Result<Option<ProductEventType>, Exception>)
    ensures r.Ok? <==> eventType == "" || eventType == "top_up" || eventType == "withdraw"
    ensures r.Ok? ==> (r.value.None? <==> eventType == "")
    ensures r.Ok? && r.value.Some? ==> r.value.value.Value() == eventType
  {
    if eventType == "" then Ok(None)
    else
      var t :- ProductEventTypes.From(eventType);
      Ok(Some(t))
  }

  const RetrieveFailed := "Failed to retrieve product events: "

  /** The events of the query before the limit, or the failure the `try` block meets. */
  function MatchingEvents(repo: ProductEventRepository, productId: string, eventType: string)
    : (r: Result<seq<ProductEvent>, Exception>)
    reads repo
    ensures r.Ok? <==> UuidShaped(productId) && TypeFilter(eventType).Ok? && repo.readFault.None?
    ensures r.Ok? ==> forall e :: e in r.value <==>
              e in repo.events && e.productId == productId && (eventType != "" ==> e.eventType.Value() == eventType)
  {
    var id :- ProductIdFrom(productId);
    var filter :- TypeFilter(eventType);
    if filter.Some? then
      ProductEventTypes.FromValue(filter.value);
      repo.FindByProductIdAndType(id, filter.value)
    else repo.FindByProductId(id)
  }

  /**
    `GetProductEventsHandler.execute`: the product's events, optionally of
    one type, cut to `limit` when it is given and positive; every failure
    inside the `try` becomes a 400 naming its cause.
   */
  function GetProductEvents(repo: ProductEventRepository, productId: string, eventType: string, limit: Option<int>)
    : (r: Result<seq<ProductEventResponse>, Exception>)
    reads repo
    ensures productId == "" ==> r == Err(BadRequest("Product ID is required"))
    ensures productId != "" ==>
              (r.Ok? <==> UuidShaped(productId) && TypeFilter(eventType).Ok? && repo.readFault.None?)
    ensures productId != "" && r.Err? ==>
              r.error.HttpError? && r.error.status == 400 && RetrieveFailed <= r.error.message
    ensures r.Ok? ==> forall d :: d in r.value ==>
              exists e :: e in repo.events && d == EventResponse(e)
                && e.productId == productId && (eventType != "" ==> e.eventType.Value() == eventType)
    ensures r.Ok? && (limit.None? || limit.value <= 0) ==>
              forall e :: e in repo.events && e.productId == productId && (eventType != "" ==> e.eventType.Value() == eventType)
                ==> EventResponse(e) in r.value
    ensures r.Ok? && limit.Some? && limit.value > 0 ==> |r.value| <= limit.value
    ensures r.Ok? ==> MatchingEvents(repo, productId, eventType).Ok?
    ensures r.Ok? ==>
              var all := EventResponses(MatchingEvents(repo, productId, eventType).value);
              r.value == if limit.Some? && limit.value > 0 then Take(all, limit.value) else all
  {
    if productId == "" then Err(BadRequest("Product ID is required"))
    else
      var found := MatchingEvents(repo, productId, eventType);
      if found.Err? then Err(BadRequest(RetrieveFailed + found.error.message))
      else
        var events := if limit.Some? && limit.value > 0 then Take(found.value, limit.value) else found.value;
        if limit.Some? && limit.value > 0 then
          ResponsesOfTake(found.value, limit.value);
          Ok(EventResponses(events))
        else Ok(EventResponses(events))
  }
}
