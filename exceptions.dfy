/**
  Everything the core can throw. The source has four exception hierarchies
  (application, domain, infrastructure and the framework's HTTP exceptions)
  plus bare `Error`s; each is one constructor here, carrying the fields the
  global exception filter reads.
 */
module Exceptions {
  import Text

  datatype Exception =
    | ApplicationError(name: string, code: string, httpStatus: int, message: string)
    | DomainError(name: string, code: string, message: string)
    | InfrastructureError(name: string, code: string, message: string)
    | HttpError(name: string, status: int, message: string)
    | PlainError(message: string)
  {
    /** The exception's class name, which `instanceof` tests stand for; a bare `Error` is "Error". */
    function Name(): string {
      if PlainError? then "Error" else name
    }
  }

  // ---- HTTP exceptions of the web framework

  function BadRequest(message: string): (r: Exception)
    ensures r.HttpError? && r.Name() == "BadRequestException" && r.status == 400 && r.message == message
  {
    HttpError("BadRequestException", 400, message)
  }

  function NotFound(message: string): (r: Exception)
    ensures r.HttpError? && r.Name() == "NotFoundException" && r.status == 404 && r.message == message
  {
    HttpError("NotFoundException", 404, message)
  }

  function Forbidden(message: string): (r: Exception)
    ensures r.HttpError? && r.Name() == "ForbiddenException" && r.status == 403 && r.message == message
  {
    HttpError("ForbiddenException", 403, message)
  }

  function Conflict(message: string): (r: Exception)
    ensures r.HttpError? && r.Name() == "ConflictException" && r.status == 409 && r.message == message
  {
    HttpError("ConflictException", 409, message)
  }

  // ---- application exceptions

  function UserCreation(message: string): (r: Exception)
    ensures r.ApplicationError? && r.Name() == "UserCreationException" && r.code == "USER_CREATION_FAILED" && r.httpStatus == 400
    ensures r.message == message
  {
    ApplicationError("UserCreationException", "USER_CREATION_FAILED", 400, message)
  }

  function UsernameAlreadyExists(username: string): (r: Exception)
    ensures r.ApplicationError? && r.Name() == "UsernameAlreadyExistsException" && r.code == "USERNAME_ALREADY_EXISTS" && r.httpStatus == 409
    ensures r.message == "Username '" + username + "' already exists"
  {
    ApplicationError("UsernameAlreadyExistsException", "USERNAME_ALREADY_EXISTS", 409,
      "Username '" + username + "' already exists")
  }

  function UserNotFound(identifier: string): (r: Exception)
    ensures r.ApplicationError? && r.Name() == "UserNotFoundException" && r.code == "USER_NOT_FOUND" && r.httpStatus == 404
    ensures r.message == "User not found: " + identifier
  {
    ApplicationError("UserNotFoundException", "USER_NOT_FOUND", 404, "User not found: " + identifier)
  }

  function UserAuthorization(action: string, role: string): (r: Exception)
    ensures r.ApplicationError? && r.Name() == "UserAuthorizationException" && r.code == "USER_AUTHORIZATION_FAILED" && r.httpStatus == 403
    ensures r.message == "User with role '" + role + "' is not authorized to perform action: " + action
  {
    ApplicationError("UserAuthorizationException", "USER_AUTHORIZATION_FAILED", 403,
      "User with role '" + role + "' is not authorized to perform action: " + action)
  }

  function DepositOperation(message: string): (r: Exception)
    ensures r.ApplicationError? && r.Name() == "DepositOperationException" && r.code == "DEPOSIT_OPERATION_FAILED" && r.httpStatus == 400
    ensures r.message == message
  {
    ApplicationError("DepositOperationException", "DEPOSIT_OPERATION_FAILED", 400, message)
  }

  function ProductNotFound(productId: string): (r: Exception)
    ensures r.ApplicationError? && r.Name() == "ProductNotFoundException" && r.code == "PRODUCT_NOT_FOUND" && r.httpStatus == 404
    ensures r.message == "Product not found: " + productId
  {
    ApplicationError("ProductNotFoundException", "PRODUCT_NOT_FOUND", 404, "Product not found: " + productId)
  }

  function ProductUpdate(message: string): (r: Exception)
    ensures r.ApplicationError? && r.Name() == "ProductUpdateException" && r.code == "PRODUCT_UPDATE_FAILED" && r.httpStatus == 400
    ensures r.message == message
  {
    ApplicationError("ProductUpdateException", "PRODUCT_UPDATE_FAILED", 400, message)
  }

  function ProductDeletion(message: string): (r: Exception)
    ensures r.ApplicationError? && r.Name() == "ProductDeletionException" && r.code == "PRODUCT_DELETION_FAILED" && r.httpStatus == 400
    ensures r.message == message
  {
    ApplicationError("ProductDeletionException", "PRODUCT_DELETION_FAILED", 400, message)
  }

  /** The not-found messages name what was looked for: different targets give different errors. */
  lemma NotFoundNamesItsTarget(a: string, b: string)
    ensures UserNotFound(a) == UserNotFound(b) ==> a == b
    ensures ProductNotFound(a) == ProductNotFound(b) ==> a == b
  {
    if UserNotFound(a) == UserNotFound(b) {
      var prefix := "User not found: ";
      assert (prefix + a)[|prefix|..] == a && (prefix + b)[|prefix|..] == b;
    }
    if ProductNotFound(a) == ProductNotFound(b) {
      var prefix := "Product not found: ";
      assert (prefix + a)[|prefix|..] == a && (prefix + b)[|prefix|..] == b;
    }
  }

  // ---- domain exceptions

  function InvalidMoneyValue(message: string): (r: Exception)
    ensures r.DomainError? && r.Name() == "InvalidMoneyValueException" && r.code == "INVALID_MONEY_VALUE"
    ensures r.message == message
  {
    DomainError("InvalidMoneyValueException", "INVALID_MONEY_VALUE", message)
  }

  function InvalidCoinDenomination(denomination: int): (r: Exception)
    ensures r.DomainError? && r.Name() == "InvalidCoinDenominationException" && r.code == "INVALID_COIN_DENOMINATION"
    ensures r.message == "Invalid coin denomination: " + Text.IntToString(denomination) + ". Valid denominations: 5, 10, 20, 50, 100"
  {
    DomainError("InvalidCoinDenominationException", "INVALID_COIN_DENOMINATION",
      "Invalid coin denomination: " + Text.IntToString(denomination) + ". Valid denominations: 5, 10, 20, 50, 100")
  }

  function InsufficientFunds(available: int, required: int): (r: Exception)
    ensures r.DomainError? && r.Name() == "InsufficientFundsException" && r.code == "INSUFFICIENT_FUNDS"
    ensures r.message == "Insufficient funds. Available: " + Text.IntToString(available) + " cents, Required: " + Text.IntToString(required) + " cents"
  {
    DomainError("InsufficientFundsException", "INSUFFICIENT_FUNDS",
      "Insufficient funds. Available: " + Text.IntToString(available)
      + " cents, Required: " + Text.IntToString(required) + " cents")
  }

  function InvalidProductEventId(value: string): (r: Exception)
    ensures r.DomainError? && r.Name() == "InvalidProductEventIdException" && r.code == "INVALID_PRODUCT_EVENT_ID"
    ensures r.message == "Invalid UUID for ProductEventId: \"" + value + "\""
  {
    DomainError("InvalidProductEventIdException", "INVALID_PRODUCT_EVENT_ID",
      "Invalid UUID for ProductEventId: \"" + value + "\"")
  }
}
