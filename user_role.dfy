/** The UserRole value object: a user is either a buyer or a seller. */
module UserRoles {
  import opened Wrappers
  import opened Exceptions

  datatype UserRole = Buyer | Seller {

    /** `value` and `toString()`: the role's literal. */
    function Value(): (s: string)
      ensures s == "buyer" || s == "seller"
      ensures s == "buyer" <==> Buyer?
    {
      match this
      case Buyer => "buyer"
      case Seller => "seller"
    }

    /** `isBuyer()`: the value is "buyer". */
    predicate IsBuyer()
      ensures IsBuyer() <==> this.Buyer?
    {
      Value() == "buyer"
    }

    /** `isSeller()`: the value is "seller". */
    predicate IsSeller()
      ensures IsSeller() <==> this.Seller?
    {
      Value() == "seller"
    }
  }

  /** `UserRole.from(role)`: parses the literal or throws a plain Error. */
  function From(role: string): (r: Result<UserRole, Exception>)
    ensures r.Ok? <==> role == "buyer" || role == "seller"
    ensures r.Ok? ==> r.value.Value() == role
    ensures r.Err? ==> r.error == PlainError("Unsupported role \"" + role + "\"")
  {
    if role != "buyer" && role != "seller" then Err(PlainError("Unsupported role \"" + role + "\""))
    else if role == "buyer" then Ok(Buyer)
    else Ok(Seller)
  }

  /** Exactly one of the two guards holds for every role. */
  lemma ExactlyOneRole(r: UserRole)
    ensures r.IsBuyer() != r.IsSeller()
  {
  }

  /** Parsing the printed role gives the role back. */
  lemma FromValue(r: UserRole)
    ensures From(r.Value()) == Ok(r)
  {
  }
}
