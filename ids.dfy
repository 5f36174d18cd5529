/**
  Identifier value objects (UserId, ProductId, ProductEventId). Each wraps a
  UUID string; `from` rejects a malformed string. Random generation (`create`)
  is not modelled: callers supply the new id.
 */
module Ids {
  import opened Wrappers
  import opened Exceptions
  import Text

  predicate IsHexDigit(c: char) {
    '0' <= c <= '9' || 'a' <= c <= 'f' || 'A' <= c <= 'F'
  }

  predicate HexBetween(s: string, lo: nat, hi: nat)
    requires lo <= hi <= |s|
  {
    forall i :: lo <= i < hi ==> IsHexDigit(s[i])
  }

  /** Five groups of 8, 4, 4, 4 and 12 hexadecimal digits separated by '-'. */
  predicate UuidShaped(s: string) {
    && |s| == 36
    && s[8] == '-' && s[13] == '-' && s[18] == '-' && s[23] == '-'
    && HexBetween(s, 0, 8) && HexBetween(s, 9, 13) && HexBetween(s, 14, 18)
    && HexBetween(s, 19, 23) && HexBetween(s, 24, 36)
  }

  /** A UUID-shaped string; the witness is the nil UUID. */
  type Uuid = s: string | UuidShaped(s)
    witness seq(36, i => if i == 8 || i == 13 || i == 18 || i == 23 then '-' else '0')

  type UserId = Uuid
  type ProductId = Uuid
  type ProductEventId = Uuid

  const InvalidUuid := "Invalid UUID"

  /** `UserId.from`: a plain Error naming the rejected value. */
  function UserIdFrom(value: string): (r: Result<UserId, Exception>)
    ensures r.Ok? <==> UuidShaped(value)
    ensures r.Ok? ==> r.value == value
    ensures r.Err? ==> r.error.PlainError? && Text.Contains(r.error.message, InvalidUuid)
  {
    if UuidShaped(value) then Ok(value)
    else
      var message := "Invalid UUID for UserId: \"" + value + "\"";
      Text.ContainsPrefix(message, InvalidUuid);
      Err(PlainError(message))
  }

  /** `ProductId.from`: its message says "UserId" too, as the source's does. */
  function ProductIdFrom(value: string): (r: Result<ProductId, Exception>)
    ensures r.Ok? <==> UuidShaped(value)
    ensures r.Ok? ==> r.value == value
    ensures r.Err? ==> r.error.PlainError? && Text.Contains(r.error.message, InvalidUuid)
  {
    if UuidShaped(value) then Ok(value)
    else
      var message := "Invalid UUID for UserId: \"" + value + "\"";
      Text.ContainsPrefix(message, InvalidUuid);
      Err(PlainError(message))
  }

  /** `ProductEventId.from`: the only id whose failure is a domain exception. */
  function ProductEventIdFrom(value: string): (r: Result<ProductEventId, Exception>)
    ensures r.Ok? <==> UuidShaped(value)
    ensures r.Ok? ==> r.value == value
    ensures r.Err? ==> r.error.DomainError? && Text.Contains(r.error.message, InvalidUuid)
  {
    if UuidShaped(value) then Ok(value)
    else
      EventIdMessageNamesUuid(value);
      Err(InvalidProductEventId(value))
  }

  /** The product event id's refusal starts with "Invalid UUID". */
  lemma EventIdMessageNamesUuid(value: string)
    ensures Text.Contains(InvalidProductEventId(value).message, InvalidUuid)
  {
    var rest := " for ProductEventId: \"" + value + "\"";
    var m := InvalidUuid + rest;
    assert InvalidProductEventId(value).message == m;
    assert m[..|InvalidUuid|] == InvalidUuid;
    Text.ContainsPrefix(m, InvalidUuid);
  }
}
