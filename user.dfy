/**
  The User aggregate: a buyer or a seller with a deposit of cents. Only a
  buyer's deposit ever moves; every change is recorded on the list of
  uncommitted domain events. Its failures are plain Errors.
 */
module Users {
  import opened Wrappers
  import opened Exceptions
  import opened Ids
  import opened UserRoles
  import opened MoneyValue

  /** The domain events a User applies, with what they carry. */
  datatype UserEvent =
    | UserCreated(userId: UserId, username: string, role: string)
    | DepositAdded(userId: UserId, amount: nat)

  /** A user as the repository port stores it. */
  datatype UserData = UserData(id: UserId, username: string, deposit: Money, role: UserRole)

  class User {
    const id: UserId
    const username: string
    const role: UserRole
    var deposit: Money
    var uncommitted: seq<UserEvent>

    /** A seller holds no money: it starts at zero and every mutator turns sellers away. */
    predicate SellerHoldsNothing()
      reads this
    {
      role == Seller ==> deposit.cents == 0
    }

    /** The stored form of this user. */
    function Data(): UserData
      reads this
    {
      UserData(id, username, deposit, role)
    }

    /** `User.create`: a zero deposit and one UserCreated event. */
    constructor Create(id: UserId, username: string, role: UserRole)
      ensures this.id == id && this.username == username && this.role == role
      ensures deposit == Zero()
      ensures uncommitted == [UserCreated(id, username, role.Value())]
      ensures SellerHoldsNothing()
    {
      this.id := id;
      this.username := username;
      this.role := role;
      deposit := Zero();
      uncommitted := [UserCreated(id, username, role.Value())];
    }

    /** Rebuilds a stored user, with no pending events. */
    constructor Restore(data: UserData)
      ensures Data() == data && uncommitted == []
    {
      id := data.id;
      username := data.username;
      role := data.role;
      deposit := data.deposit;
      uncommitted := [];
    }

    /** `canBuyProduct`. */
    predicate CanBuyProduct()
      ensures CanBuyProduct() <==> role == Buyer
    {
      role.IsBuyer()
    }

    /** `canManageProducts`. */
    predicate CanManageProducts()
      ensures CanManageProducts() <==> role == Seller
    {
      role.IsSeller()
    }

    /** `addDeposit`: a buyer's deposit grows by `amount` and a DepositAdded records it. */
    method AddDeposit(amount: Money) returns (o: Outcome<Exception>)
      modifies this
      ensures !CanBuyProduct() ==> o == Fail(PlainError("Only buyers can deposit money")) && unchanged(this)
      ensures CanBuyProduct() ==> o == Pass && deposit.cents == old(deposit.cents) + amount.cents
      ensures CanBuyProduct() ==> uncommitted == old(uncommitted) + [DepositAdded(id, amount.cents)]
      ensures old(SellerHoldsNothing()) ==> SellerHoldsNothing()
    {
      if !CanBuyProduct() {
        return Fail(PlainError("Only buyers can deposit money"));
      }
      deposit := deposit.Add(amount);
      uncommitted := uncommitted + [DepositAdded(id, amount.cents)];
      return Pass;
    }

    /** `resetDeposit`: a buyer's deposit goes back to zero; no event is recorded. */
    method ResetDeposit() returns (o: Outcome<Exception>)
      modifies this
      ensures !CanBuyProduct() ==> o == Fail(PlainError("Only buyers can reset deposit")) && unchanged(this)
      ensures CanBuyProduct() ==> o == Pass && deposit == Zero() && uncommitted == old(uncommitted)
      ensures old(SellerHoldsNothing()) ==> SellerHoldsNothing()
    {
      if !CanBuyProduct() {
        return Fail(PlainError("Only buyers can reset deposit"));
      }
      deposit := Zero();
      return Pass;
    }

    /** `spendMoney`: a buyer who holds at least `amount` gives it up. */
    method SpendMoney(amount: Money) returns (o: Outcome<Exception>)
      modifies this
      ensures !CanBuyProduct() ==> o == Fail(PlainError("Only buyers can spend money")) && unchanged(this)
      ensures CanBuyProduct() && old(deposit.cents) < amount.cents ==>
                o == Fail(PlainError("Insufficient funds")) && unchanged(this)
      ensures CanBuyProduct() && amount.cents <= old(deposit.cents) ==>
                o == Pass && deposit.cents == old(deposit.cents) - amount.cents && uncommitted == old(uncommitted)
      ensures old(SellerHoldsNothing()) ==> SellerHoldsNothing()
    {
      if !CanBuyProduct() {
        return Fail(PlainError("Only buyers can spend money"));
      }
      if deposit.IsLessThan(amount) {
        return Fail(PlainError("Insufficient funds"));
      }
      var rest := deposit.Subtract(amount, ValueObject);
      deposit := rest.value;
      return Pass;
    }
  }

  /** No user can both buy and manage products, and every user can do one of them. */
  lemma ExactlyOneCapability(u: User)
    ensures u.CanBuyProduct() != u.CanManageProducts()
  {
    ExactlyOneRole(u.role);
  }
}
