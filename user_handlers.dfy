/**
  The user command handlers: creating an account, depositing a coin and
  taking the whole deposit back. Each runs its guards in the source's order,
  loads the user through the repository, changes it and saves it. A failure
  after the user was loaded leaves the store as it was, because the loaded
  user is a copy.
 */
module UserHandlers {
  import opened Wrappers
  import opened Exceptions
  import opened Ids
  import opened MoneyValue
  import opened UserRoles
  import opened Users
  import opened Repositories

  /** No stored seller holds money. */
  predicate SellersHoldNothing(users: map<UserId, UserData>) {
    forall id :: id in users && users[id].role == Seller ==> users[id].deposit.cents == 0
  }

  /**
    The deposit handler's `catch`: its own three exceptions pass through, a
    domain exception becomes a DepositOperationException with the same
    message, anything else a generic one.
   */
  function DepositCatch(e: Exception): (r: Exception)
    ensures r.Name() in {"UserNotFoundException", "UserAuthorizationException", "DepositOperationException"}
    ensures e.Name() in {"UserNotFoundException", "UserAuthorizationException", "DepositOperationException"} ==> r == e
    ensures e.DomainError? && e.Name() !in {"UserNotFoundException", "UserAuthorizationException", "DepositOperationException"} ==>
              r == DepositOperation(e.message)
    ensures e.PlainError? ==> r == DepositOperation("Failed to process deposit")
  {
    if e.Name() in {"UserNotFoundException", "UserAuthorizationException", "DepositOperationException"} then e
    else if e.DomainError? then DepositOperation(e.message)
    else DepositOperation("Failed to process deposit")
  }

  /** `DepositHandler`: a buyer inserts one coin. */
  class DepositHandler {
    const users: UserRepository

    constructor (users: UserRepository)
      ensures this.users == users
    {
      this.users := users;
    }

    /**
      `execute`: `userId` is `None` when the command carries none and an
      `amount` of 0 is a missing amount. The result is the new deposit.
     */
    method Execute(userId: Option<UserId>, amount: int) returns (r: Result<Money, Exception>)
      requires users.Valid()
      modifies users
      ensures users.Valid()
      ensures r.Err? ==> unchanged(users)
      ensures userId.None? || amount == 0 ==> r == Err(DepositOperation("User ID and amount are required"))
      ensures userId.Some? && amount != 0 && old(users.readFault).Some? ==> r == Err(old(users.readFault).value)
      ensures userId.Some? && amount != 0 && old(users.readFault).None? ==>
                var id := userId.value;
                var stored := old(users.users);
                && (id !in stored ==> r == Err(UserNotFound(id)))
                && (id in stored && stored[id].role != Buyer ==>
                      r == Err(UserAuthorization("deposit money", stored[id].role.Value())))
                && (id in stored && stored[id].role == Buyer && amount !in {5, 10, 20, 50, 100} ==>
                      r == Err(DepositOperation(InvalidCoinDenomination(amount).message)))
                && (id in stored && stored[id].role == Buyer && amount in {5, 10, 20, 50, 100} ==>
                      if old(users.writeFault).Some? then r == Err(DepositCatch(old(users.writeFault).value))
                      else
                        && r == Ok(Money(stored[id].deposit.cents + amount))
                        && users.users == stored[id := stored[id].(deposit := r.value)])
      ensures users.readFault == old(users.readFault) && users.writeFault == old(users.writeFault)
      ensures SellersHoldNothing(old(users.users)) ==> SellersHoldNothing(users.users)
    {
      if userId.None? || amount == 0 {
        return Err(DepositOperation("User ID and amount are required"));
      }
      var id := userId.value;
      var found := users.FindById(id);
      if found.Err? {
        return Err(found.error);
      }
      if found.value.None? {
        return Err(UserNotFound(id));
      }
      var user := found.value.value;
      if !user.CanBuyProduct() {
        return Err(UserAuthorization("deposit money", user.role.Value()));
      }
      var coin := FromValidDenomination(amount, ValueObjects);
      if coin.Err? {
        return Err(DepositCatch(coin.error));
      }
      // The user was just checked to be a buyer, so this cannot fail.
      var added := user.AddDeposit(coin.value);
      var saved := users.Save(user);
      if saved.Fail? {
        return Err(DepositCatch(saved.error));
      }
      return Ok(user.deposit);
    }
  }

  /** `ResetDepositHandler`: a buyer takes the whole deposit back. */
  class ResetDepositHandler {
    const users: UserRepository

    constructor (users: UserRepository)
      ensures this.users == users
    {
      this.users := users;
    }

    /** `execute`: the result is the deposit handed back; the stored deposit becomes zero. */
    method Execute(userId: Option<UserId>) returns (r: Result<Money, Exception>)
      requires users.Valid()
      modifies users
      ensures users.Valid()
      ensures r.Err? ==> unchanged(users)
      ensures userId.None? ==> r == Err(BadRequest("User ID is required"))
      ensures userId.Some? && old(users.readFault).Some? ==> r == Err(old(users.readFault).value)
      ensures userId.Some? && old(users.readFault).None? ==>
                var id := userId.value;
                var stored := old(users.users);
                && (id !in stored ==> r == Err(NotFound("User not found")))
                && (id in stored && stored[id].role != Buyer ==> r == Err(Forbidden("Only buyers can reset deposit")))
                && (id in stored && stored[id].role == Buyer ==>
                      if old(users.writeFault).Some? then r == Err(BadRequest("Failed to reset deposit"))
                      else
                        && r == Ok(stored[id].deposit)
                        && users.users == stored[id := stored[id].(deposit := Zero())])
      ensures users.readFault == old(users.readFault) && users.writeFault == old(users.writeFault)
      ensures SellersHoldNothing(old(users.users)) ==> SellersHoldNothing(users.users)
    {
      if userId.None? {
        return Err(BadRequest("User ID is required"));
      }
      var found := users.FindById(userId.value);
      if found.Err? {
        return Err(found.error);
      }
      if found.value.None? {
        return Err(NotFound("User not found"));
      }
      var user := found.value.value;
      if !user.CanBuyProduct() {
        return Err(Forbidden("Only buyers can reset deposit"));
      }
      var currentDeposit := user.deposit;
      // The user was just checked to be a buyer, so this cannot fail.
      var reset := user.ResetDeposit();
      var saved := users.Save(user);
      if saved.Fail? {
        return Err(BadRequest("Failed to reset deposit"));
      }
      return Ok(currentDeposit);
    }
  }

  /**
    The create-user handler's `catch`: its own two exceptions pass through,
    anything else becomes a UserCreationException naming the cause.
   */
  function CreateUserCatch(e: Exception): (r: Exception)
    ensures r.Name() in {"UserCreationException", "UsernameAlreadyExistsException"}
    ensures e.Name() in {"UserCreationException", "UsernameAlreadyExistsException"} ==> r == e
    ensures e.Name() !in {"UserCreationException", "UsernameAlreadyExistsException"} ==>
              r == UserCreation("Failed to create user account: " + e.message)
  {
    if e.Name() in {"UserCreationException", "UsernameAlreadyExistsException"} then e
    else UserCreation("Failed to create user account: " + e.message)
  }

  /**
    `CreateUserHandler`: registers a user and their credentials. The new id
    and the password's salt and hash come from a random source and a hashing
    library, so they are parameters.
   */
  class CreateUserHandler {
    const users: UserRepository
    const credentials: CredentialRepository

    constructor (users: UserRepository, credentials: CredentialRepository)
      ensures this.users == users && this.credentials == credentials
    {
      this.users := users;
      this.credentials := credentials;
    }

    /**
      `execute`: an empty string is a missing field. The two saves are not
      atomic: when the credentials cannot be saved, the user stays saved
      without them.
     */
    method Execute(username: string, password: string, role: string, newId: UserId, passwordHash: string, salt: string)
      returns (r: Result<UserId, Exception>)
      requires users.Valid()
      modifies users, credentials
      ensures users.Valid()
      ensures username == "" || password == "" || role == "" ==>
                r == Err(UserCreation("Username, password, and role are required"))
                && unchanged(users) && unchanged(credentials)
      ensures username != "" && password != "" && role != "" && old(users.readFault).Some? ==>
                r == Err(old(users.readFault).value) && unchanged(users) && unchanged(credentials)
      ensures username != "" && password != "" && role != "" && old(users.readFault).None? ==>
                var taken := exists id :: id in old(users.users) && old(users.users)[id].username == username;
                var parsed := UserRoles.From(role);
                var user := UserData(newId, username, Zero(), if parsed.Ok? then parsed.value else Buyer);
                && (taken ==> r == Err(UsernameAlreadyExists(username)) && unchanged(users) && unchanged(credentials))
                && (!taken && parsed.Err? ==> r == Err(parsed.error) && unchanged(users) && unchanged(credentials))
                && (!taken && parsed.Ok? && old(users.writeFault).Some? ==>
                      r == Err(CreateUserCatch(old(users.writeFault).value)) && unchanged(users) && unchanged(credentials))
                && (!taken && parsed.Ok? && old(users.writeFault).None? ==>
                      && users.users == old(users.users)[newId := user]
                      && (old(credentials.writeFault).Some? ==>
                            r == Err(CreateUserCatch(old(credentials.writeFault).value)) && unchanged(credentials))
                      && (old(credentials.writeFault).None? ==>
                            && r == Ok(newId)
                            && credentials.credentials
                                 == old(credentials.credentials)[newId := Credential(newId, passwordHash, salt)]))
      ensures users.readFault == old(users.readFault) && users.writeFault == old(users.writeFault)
      ensures credentials.writeFault == old(credentials.writeFault)
      ensures SellersHoldNothing(old(users.users)) ==> SellersHoldNothing(users.users)
    {
      if username == "" || password == "" || role == "" {
        return Err(UserCreation("Username, password, and role are required"));
      }
      var existing := users.FindByUsername(username);
      if existing.Err? {
        return Err(existing.error);
      }
      if existing.value.Some? {
        return Err(UsernameAlreadyExists(username));
      }
      var userRole := UserRoles.From(role);
      if userRole.Err? {
        return Err(userRole.error);
      }
      var user := new User.Create(newId, username, userRole.value);
      var credential := Credential(newId, passwordHash, salt);
      var savedUser := users.Save(user);
      if savedUser.Fail? {
        return Err(CreateUserCatch(savedUser.error));
      }
      var savedCredential := credentials.Save(credential);
      if savedCredential.Fail? {
        return Err(CreateUserCatch(savedCredential.error));
      }
      return Ok(newId);
    }
  }
}
