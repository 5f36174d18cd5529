/** The ProductEventType value object: an inventory top-up or a withdrawal. */
module ProductEventTypes {
  import opened Wrappers
  import opened Exceptions

  datatype ProductEventType = TopUp | Withdraw {

    /** `value` and `toString()`: the type's literal. */
    function Value(): (s: string)
      ensures s == "top_up" || s == "withdraw"
      ensures s == "top_up" <==> TopUp?
    {
      match this
      case TopUp => "top_up"
      case Withdraw => "withdraw"
    }

    /** `isTopUp()`: the value is "top_up". */
    predicate IsTopUp()
      ensures IsTopUp() <==> this.TopUp?
    {
      Value() == "top_up"
    }

    /** `isWithdraw()`: the value is "withdraw". */
    predicate IsWithdraw()
      ensures IsWithdraw() <==> this.Withdraw?
    {
      Value() == "withdraw"
    }
  }

  /** `ProductEventType.from(type)`: parses the literal or throws a plain Error. */
  function From(t: string): (r: Result<ProductEventType, Exception>)
    ensures r.Ok? <==> t == "top_up" || t == "withdraw"
    ensures r.Ok? ==> r.value.Value() == t
    ensures r.Err? ==> r.error == PlainError("Invalid product event type: \"" + t + "\"")
  {
    if t != "top_up" && t != "withdraw" then Err(PlainError("Invalid product event type: \"" + t + "\""))
    else if t == "top_up" then Ok(TopUp)
    else Ok(Withdraw)
  }

  /** The two guards are mutually exclusive and exhaustive. */
  lemma ExactlyOneType(t: ProductEventType)
    ensures t.IsTopUp() != t.IsWithdraw()
  {
  }

  /** Parsing the printed type gives the type back. */
  lemma FromValue(t: ProductEventType)
    ensures From(t.Value()) == Ok(t)
  {
  }
}
