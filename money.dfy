/**
  The Money value object: an immutable, never-negative amount of cents.

  The repository carries two copies of it (`value-objects/money.vo.ts`, used
  by the handlers and mappers, and `value-object/money.vo.ts`, used by the
  User aggregate). They compute the same values and differ only in what they
  throw, so there is one `Money` type here and every operation that can fail
  takes the `Copy` whose exception it raises.
 */
module MoneyValue {
  import opened Wrappers
  import opened Exceptions
  import Text

  /** The coins the vending machine accepts, in the source's order. */
  const ValidDenominations: seq<int> := [5, 10, 20, 50, 100]

  /** The private constructor's check, `cents < 0` throws, is the type's invariant. */
  datatype Money = Money(cents: nat) {

    /** `add`: never fails. */
    function Add(other: Money): (r: Money)
      ensures r.cents == cents + other.cents
    {
      Money(cents + other.cents)
    }

    /** `subtract`: throws instead of going negative. */
    function Subtract(other: Money, copy: Copy): (r: Result<Money, Exception>)
      ensures r.Ok? <==> other.cents <= cents
      ensures r.Ok? ==> r.value.cents + other.cents == cents
      ensures r.Err? ==> r.error == SubtractError(copy, cents, other.cents)
    {
      var result := cents - other.cents;
      if result < 0 then Err(SubtractError(copy, cents, other.cents)) else Ok(Money(result))
    }

    /** `isLessThan`: strict comparison of cents. */
    predicate IsLessThan(other: Money)
      ensures IsLessThan(other) <==> cents < other.cents
    {
      cents < other.cents
    }
  }

  /** A sum is less than another exactly when subtracting it would fail. */
  lemma LessThanIffSubtractFails(a: Money, b: Money, copy: Copy)
    ensures a.IsLessThan(b) <==> a.Subtract(b, copy).Err?
    ensures a.IsLessThan(b) != b.IsLessThan(a) || a.cents == b.cents
  {
  }

  /** Which of the two source files an operation comes from. */
  datatype Copy =
    | ValueObjects  // src/domain/shared/value-objects/money.vo.ts: typed domain exceptions
    | ValueObject   // src/domain/shared/value-object/money.vo.ts: plain Errors

  function NegativeError(copy: Copy): Exception {
    match copy
    case ValueObjects => InvalidMoneyValue("Money cannot be negative")
    case ValueObject => PlainError("Money cannot be negative")
  }

  function NotIntegerError(copy: Copy): Exception {
    match copy
    case ValueObjects => InvalidMoneyValue("Money value must be integer cents")
    case ValueObject => PlainError("Money value must be integer cents")
  }

  function DenominationError(copy: Copy, cents: int): Exception {
    match copy
    case ValueObjects => InvalidCoinDenomination(cents)
    case ValueObject =>
      PlainError("Invalid coin: " + Text.IntToString(cents) + ". Valid denominations: 5, 10, 20, 50, 100")
  }

  function SubtractError(copy: Copy, available: int, required: int): Exception {
    match copy
    case ValueObjects => InsufficientFunds(available, required)
    case ValueObject => PlainError("Cannot subtract more than current amount")
  }

  /** `zero()`. */
  function Zero(): (r: Money)
    ensures r.cents == 0
  {
    Money(0)
  }

  /** The private constructor: rejects a negative amount. */
  function Construct(cents: int, copy: Copy): (r: Result<Money, Exception>)
    ensures r.Ok? <==> cents >= 0
    ensures r.Ok? ==> r.value.cents == cents
    ensures r.Err? ==> r.error == NegativeError(copy)
  {
    if cents < 0 then Err(NegativeError(copy)) else Ok(Money(cents))
  }

  /** JavaScript's `Number.isInteger` on a finite number. */
  predicate IsInteger(x: real) {
    x.Floor as real == x
  }

  /**
    `fromCents(cents)`: `cents` is a JavaScript number, so it is a `real` here;
    a fractional value is rejected before the sign is checked.
   */
  function FromCents(cents: real, copy: Copy): (r: Result<Money, Exception>)
    ensures r.Ok? <==> IsInteger(cents) && cents >= 0.0
    ensures r.Ok? ==> r.value.cents as real == cents
    ensures !IsInteger(cents) ==> r == Err(NotIntegerError(copy))
    ensures IsInteger(cents) && cents < 0.0 ==> r == Err(NegativeError(copy))
  {
    if !IsInteger(cents) then Err(NotIntegerError(copy)) else Construct(cents.Floor, copy)
  }

  /** `fromCents` on a value that is known to be an integer. */
  function FromIntCents(cents: int, copy: Copy): (r: Result<Money, Exception>)
    ensures r.Ok? <==> cents >= 0
    ensures r.Ok? ==> r.value.cents == cents
    ensures r.Err? ==> r.error == NegativeError(copy)
  {
    FromCents(cents as real, copy)
  }

  /** `fromValidDenomination(cents)`: the only factory for deposits. */
  function FromValidDenomination(cents: int, copy: Copy): (r: Result<Money, Exception>)
    ensures r.Ok? <==> cents in {5, 10, 20, 50, 100}
    ensures r.Ok? ==> r.value.cents == cents
    ensures r.Err? ==> r.error == DenominationError(copy, cents)
  {
    if cents !in ValidDenominations then Err(DenominationError(copy, cents)) else Ok(Money(cents))
  }

  /**
    `isValidAmount(cents)`: a listed coin or any multiple of five. Every coin
    is a multiple of five, so the coin list adds nothing.
   */
  predicate IsValidAmount(cents: int)
    ensures IsValidAmount(cents) <==> cents > 0 && cents % 5 == 0
  {
    cents > 0 && (cents in ValidDenominations || cents % 5 == 0)
  }

  lemma AddCommutative(a: Money, b: Money)
    ensures a.Add(b) == b.Add(a)
  {
  }

  lemma AddAssociative(a: Money, b: Money, c: Money)
    ensures a.Add(b).Add(c) == a.Add(b.Add(c))
  {
  }

  /** Subtracting what was added gives the original amount back. */
  lemma AddThenSubtract(a: Money, b: Money, copy: Copy)
    ensures a.Add(b).Subtract(b, copy) == Ok(a)
  {
  }

  /** The two copies accept and produce exactly the same values; only their errors differ. */
  lemma CopiesAgree(x: real, i: int, a: Money, b: Money)
    ensures FromCents(x, ValueObjects).Ok? == FromCents(x, ValueObject).Ok?
    ensures FromCents(x, ValueObjects).Ok? ==> FromCents(x, ValueObjects) == FromCents(x, ValueObject)
    ensures FromValidDenomination(i, ValueObjects).Ok? == FromValidDenomination(i, ValueObject).Ok?
    ensures FromValidDenomination(i, ValueObjects).Ok? ==>
              FromValidDenomination(i, ValueObjects) == FromValidDenomination(i, ValueObject)
    ensures a.Subtract(b, ValueObjects).Ok? ==> a.Subtract(b, ValueObjects) == a.Subtract(b, ValueObject)
    ensures a.Subtract(b, ValueObjects).Ok? == a.Subtract(b, ValueObject).Ok?
  {
  }

  /** The first copy throws domain exceptions, the second plain Errors. */
  lemma CopiesDifferInErrorKind(x: real, i: int, a: Money, b: Money)
    ensures FromCents(x, ValueObjects).Err? ==> FromCents(x, ValueObjects).error.DomainError?
    ensures FromCents(x, ValueObject).Err? ==> FromCents(x, ValueObject).error.PlainError?
    ensures FromValidDenomination(i, ValueObjects).Err? ==> FromValidDenomination(i, ValueObjects).error.DomainError?
    ensures FromValidDenomination(i, ValueObject).Err? ==> FromValidDenomination(i, ValueObject).error.PlainError?
    ensures a.Subtract(b, ValueObjects).Err? ==> a.Subtract(b, ValueObjects).error.code == "INSUFFICIENT_FUNDS"
    ensures a.Subtract(b, ValueObject).Err? ==> a.Subtract(b, ValueObject).error.PlainError?
  {
  }
}
