/**
  The `IdempotencyKey` parameter decorator: it takes the `Idempotency-Key`
  header of a request and rejects the request unless the header holds a
  valid key.
 */
module IdempotencyDecorator {
  import opened Wrappers
  import opened Exceptions
  import opened Idempotency

  /**
    The `idempotency-key` header as a handler sees it: missing, a string, or
    some other value (an array of repeated values, say) that `${...}`
    renders as `text`.
   */
  datatype Header = Absent | Text(value: string) | NonString(text: string)

  const KeyRequired := "Idempotency-Key header is required for this operation"
  const KeyNotString := "Idempotency-Key must be a string"
  const KeyNotUuid := "Idempotency-Key must be a valid UUID v4"

  /**
    The key the decorator hands to the controller: exactly the valid keys
    are let through, unchanged, and every other header is a bad request
    whose message names what is wrong with it, checked in that order.
   */
  function IdempotencyKeyParam(header: Header): (r: Result<string, Exception>)
    ensures r.Ok? <==> header.Text? && ValidIdempotencyKey(header.value)
    ensures r.Ok? ==> r.value == header.value
    ensures header.Absent? || header == Text("") ==> r == Err(BadRequest(KeyRequired))
    ensures header.NonString? ==> r == Err(BadRequest(KeyNotString))
    ensures header.Text? && header.value != "" && !ValidIdempotencyKey(header.value)
            ==> r == Err(BadRequest(KeyNotUuid))
  {
    match header
    case Absent => Err(BadRequest(KeyRequired))
    case NonString(_) => Err(BadRequest(KeyNotString))
    case Text(value) =>
      if value == "" then Err(BadRequest(KeyRequired))
      else if !ValidIdempotencyKey(value) then Err(BadRequest(KeyNotUuid))
      else Ok(value)
  }

  /** A key the decorator lets through can never be confused with another pair's in the store. */
  lemma AcceptedKeyIsScoped(header: Header, userId: string, otherKey: string, otherUserId: string)
    requires IdempotencyKeyParam(header).Ok?
    requires ValidIdempotencyKey(otherKey)
    requires BuildRedisKey(IdempotencyKeyParam(header).value, userId) == BuildRedisKey(otherKey, otherUserId)
    ensures IdempotencyKeyParam(header).value == otherKey && userId == otherUserId
  {
    ValidKeyHasNoColon(header.value);
    ValidKeyHasNoColon(otherKey);
    RedisKeyInjective(header.value, userId, otherKey, otherUserId);
  }
}
