/**
  The idempotency service: keys are UUIDs of version 4, cached responses
  live in a key-value store under a storage key scoped by the user. The
  store is a map; its time-to-live is kept with each entry but never
  expires anything here.
 */
module Idempotency {
  import opened Wrappers
  import opened Ids

  const KeyPrefix := "idempotency:"

  /** Seconds a cached response lives when the caller gives no time-to-live. */
  const DefaultTtl := 3600

  /** What the interceptor caches for a request: the response body and where it came from. */
  datatype CachedResponse = CachedResponse(data: string, timestamp: string, httpMethod: string, url: string)

  /** One stored value and the time-to-live it was stored with. */
  datatype Entry = Entry(response: CachedResponse, ttl: int)

  // ---- key validation

  /** The character classes of the key pattern, one per position. */
  datatype CharClass = Hex | Dash | Four | Variant

  /** The variant digit of section 4.1.1 of RFC 4122: 10xx in binary, in either case. */
  predicate IsVariantDigit(c: char) {
    c == '8' || c == '9' || c == 'a' || c == 'b' || c == 'A' || c == 'B'
  }

  predicate Accepts(k: CharClass, c: char) {
    match k
    case Hex => IsHexDigit(c)
    case Dash => c == '-'
    case Four => c == '4'
    case Variant => IsVariantDigit(c)
  }

  function Repeat(k: CharClass, n: nat): (r: seq<CharClass>)
    ensures |r| == n && forall i :: 0 <= i < n ==> r[i] == k
  {
    if n == 0 then [] else [k] + Repeat(k, n - 1)
  }

  /**
    The key pattern: 8, 4, 4, 4 and 12 hexadecimal digits separated by
    dashes, the third group opening with the version digit 4 and the fourth
    with a variant digit; letters match in either case.
   */
  function KeyPattern(): seq<CharClass> {
    Repeat(Hex, 8) + [Dash] + Repeat(Hex, 4) + [Dash, Four] + Repeat(Hex, 3)
      + [Dash, Variant] + Repeat(Hex, 3) + [Dash] + Repeat(Hex, 12)
  }

  /** `validateIdempotencyKey`: the whole key matches the pattern, position by position. */
  predicate ValidIdempotencyKey(key: string) {
    |key| == |KeyPattern()| && forall i :: 0 <= i < |key| ==> Accepts(KeyPattern()[i], key[i])
  }

  /** The class the pattern puts at each position. */
  lemma PatternAt(i: int)
    requires 0 <= i < 36
    ensures |KeyPattern()| == 36
    ensures KeyPattern()[i]
            == if i == 8 || i == 13 || i == 18 || i == 23 then Dash
               else if i == 14 then Four
               else if i == 19 then Variant
               else Hex
  {
    var p := KeyPattern();
    var a := Repeat(Hex, 8) + [Dash] + Repeat(Hex, 4) + [Dash, Four] + Repeat(Hex, 3);
    var b := [Dash, Variant] + Repeat(Hex, 3) + [Dash] + Repeat(Hex, 12);
    assert p == a + b;
    if i < 18 {
      assert p[i] == a[i];
      if i < 13 {
        assert a[i] == (Repeat(Hex, 8) + [Dash] + Repeat(Hex, 4))[i];
      } else {
        assert a[i] == ([Dash, Four] + Repeat(Hex, 3))[i - 13];
      }
    } else {
      assert p[i] == b[i - 18];
      if i < 23 {
        assert b[i - 18] == ([Dash, Variant] + Repeat(Hex, 3))[i - 18];
      } else {
        assert b[i - 18] == ([Dash] + Repeat(Hex, 12))[i - 23];
      }
    }
  }

  /**
    A valid key is a UUID in the string form of section 3 of RFC 4122 whose
    version digit (section 4.1.3) is 4 and whose variant digit is 8, 9, a
    or b, and every such UUID is a valid key.
   */
  lemma ValidKeyIsUuidV4(key: string)
    ensures ValidIdempotencyKey(key) <==> UuidShaped(key) && key[14] == '4' && IsVariantDigit(key[19])
  {
    PatternAt(0);
    if |key| == 36 {
      forall i | 0 <= i < 36
        ensures Accepts(KeyPattern()[i], key[i])
                <==> if i == 8 || i == 13 || i == 18 || i == 23 then key[i] == '-'
                     else if i == 14 then key[i] == '4'
                     else if i == 19 then IsVariantDigit(key[i])
                     else IsHexDigit(key[i])
      {
        PatternAt(i);
      }
      if UuidShaped(key) && key[14] == '4' && IsVariantDigit(key[19]) {
        forall i | 0 <= i < 36 ensures Accepts(KeyPattern()[i], key[i]) {
          if !(i == 8 || i == 13 || i == 18 || i == 23 || i == 14 || i == 19) {
            assert IsHexDigit(key[i]);
          }
        }
      }
    }
  }

  /** A valid key holds no ':', the separator of the storage key. */
  lemma ValidKeyHasNoColon(key: string)
    requires ValidIdempotencyKey(key)
    ensures ':' !in key
  {
    forall i | 0 <= i < |key| ensures key[i] != ':' {
      PatternAt(i);
    }
  }

  // ---- storage keys

  /** `buildRedisKey`: the prefix, the user's id, ':' and the key; each part can be read back. */
  function BuildRedisKey(key: string, userId: string): (r: string)
    ensures |r| == |KeyPrefix| + |userId| + 1 + |key|
    ensures r[..|KeyPrefix|] == KeyPrefix
    ensures r[|KeyPrefix|..|KeyPrefix| + |userId|] == userId
    ensures r[|KeyPrefix| + |userId|] == ':'
    ensures r[|r| - |key|..] == key
  {
    KeyPrefix + userId + ":" + key
  }

  /**
    Different (key, user) pairs never share a storage key when neither key
    holds ':', as no valid key does, or when neither user id does, as no
    UUID does: the ':' after the user's id is the first one after the
    prefix and the last one in the string.
   */
  lemma RedisKeyInjective(key1: string, userId1: string, key2: string, userId2: string)
    requires (':' !in key1 && ':' !in key2) || (':' !in userId1 && ':' !in userId2)
    requires BuildRedisKey(key1, userId1) == BuildRedisKey(key2, userId2)
    ensures key1 == key2 && userId1 == userId2
  {
    var s := BuildRedisKey(key1, userId1);
    var n := |s|;
    if ':' !in key1 && ':' !in key2 {
      if |key1| != |key2| {
        assert false;
      }
    } else {
      if |userId1| != |userId2| {
        assert false;
      }
    }
    assert key1 == s[n - |key1|..] == key2;
    assert userId1 == s[|KeyPrefix|..|KeyPrefix| + |userId1|] == userId2;
  }

  // ---- the store

  /** `getProcessedResponse` on the store's contents: the cached response, if any. */
  function Lookup(store: map<string, Entry>, key: string, userId: string): Option<CachedResponse> {
    var redisKey := BuildRedisKey(key, userId);
    if redisKey in store then Some(store[redisKey].response) else None
  }

  /** The store after `storeResponse`; `ttl` is `None` when the caller leaves it out. */
  function Stored(store: map<string, Entry>, key: string, userId: string, response: CachedResponse, ttl: Option<int>)
    : map<string, Entry>
  {
    store[BuildRedisKey(key, userId) := Entry(response, if ttl.Some? then ttl.value else DefaultTtl)]
  }

  /** The store after `removeIdempotencyKey`. */
  function Removed(store: map<string, Entry>, key: string, userId: string): map<string, Entry> {
    store - {BuildRedisKey(key, userId)}
  }

  /** Reading back what was stored gives it back, kept for the given time or an hour by default. */
  lemma LookupAfterStore(store: map<string, Entry>, key: string, userId: string, response: CachedResponse, ttl: Option<int>)
    ensures Lookup(Stored(store, key, userId, response, ttl), key, userId) == Some(response)
    ensures Stored(store, key, userId, response, ttl)[BuildRedisKey(key, userId)].ttl
            == if ttl.Some? then ttl.value else 3600
  {
  }

  /** After removal nothing is found for the pair. */
  lemma LookupAfterRemove(store: map<string, Entry>, key: string, userId: string)
    ensures Lookup(Removed(store, key, userId), key, userId) == None
  {
  }

  /**
    Storing or removing for one (key, user) pair leaves what every other
    pair finds as it was, when the keys or the user ids hold no ':'.
   */
  lemma OtherPairsUnaffected(store: map<string, Entry>, key: string, userId: string, response: CachedResponse,
                             ttl: Option<int>, otherKey: string, otherUserId: string)
    requires (':' !in key && ':' !in otherKey) || (':' !in userId && ':' !in otherUserId)
    requires key != otherKey || userId != otherUserId
    ensures Lookup(Stored(store, key, userId, response, ttl), otherKey, otherUserId) == Lookup(store, otherKey, otherUserId)
    ensures Lookup(Removed(store, key, userId), otherKey, otherUserId) == Lookup(store, otherKey, otherUserId)
  {
    if BuildRedisKey(key, userId) == BuildRedisKey(otherKey, otherUserId) {
      RedisKeyInjective(key, userId, otherKey, otherUserId);
    }
  }

  /** `IdempotencyService`, with the key-value store as a map. */
  class IdempotencyService {
    var store: map<string, Entry>

    constructor ()
      ensures store == map[]
    {
      store := map[];
    }

    /** `getProcessedResponse`: the response cached for the pair, or `None`. */
    method GetProcessedResponse(key: string, userId: string) returns (r: Option<CachedResponse>)
      ensures r == Lookup(store, key, userId)
    {
      var redisKey := BuildRedisKey(key, userId);
      if redisKey in store {
        return Some(store[redisKey].response);
      }
      return None;
    }

    /** `storeResponse`. */
    method StoreResponse(key: string, userId: string, response: CachedResponse, ttl: Option<int>)
      modifies this
      ensures store == Stored(old(store), key, userId, response, ttl)
    {
      var seconds := if ttl.Some? then ttl.value else DefaultTtl;
      store := store[BuildRedisKey(key, userId) := Entry(response, seconds)];
    }

    /** `removeIdempotencyKey`. */
    method RemoveIdempotencyKey(key: string, userId: string)
      modifies this
      ensures store == Removed(old(store), key, userId)
    {
      store := store - {BuildRedisKey(key, userId)};
    }
  }

  /** Five groups of hexadecimal digits of lengths 8, 4, 4, 4 and 12 joined by dashes form a valid key when the third opens with 4 and the fourth with a variant digit. */
  lemma ValidFromGroups(a: string, b: string, c: string, d: string, e: string)
    requires |a| == 8 && |b| == 4 && |c| == 4 && |d| == 4 && |e| == 12
    requires HexBetween(a, 0, 8) && HexBetween(b, 0, 4) && HexBetween(c, 0, 4) && HexBetween(d, 0, 4) && HexBetween(e, 0, 12)
    requires c[0] == '4' && IsVariantDigit(d[0])
    ensures ValidIdempotencyKey(a + "-" + b + "-" + c + "-" + d + "-" + e)
  {
    var key := a + "-" + b + "-" + c + "-" + d + "-" + e;
    assert key[..8] == a && key[9..13] == b && key[14..18] == c && key[19..23] == d && key[24..] == e;
    assert HexBetween(key, 0, 8) by { forall i | 0 <= i < 8 ensures IsHexDigit(key[i]) { assert key[i] == a[i]; } }
    assert HexBetween(key, 9, 13) by { forall i | 9 <= i < 13 ensures IsHexDigit(key[i]) { assert key[i] == b[i - 9]; } }
    assert HexBetween(key, 14, 18) by { forall i | 14 <= i < 18 ensures IsHexDigit(key[i]) { assert key[i] == c[i - 14]; } }
    assert HexBetween(key, 19, 23) by { forall i | 19 <= i < 23 ensures IsHexDigit(key[i]) { assert key[i] == d[i - 19]; } }
    assert HexBetween(key, 24, 36) by { forall i | 24 <= i < 36 ensures IsHexDigit(key[i]) { assert key[i] == e[i - 24]; } }
    ValidKeyIsUuidV4(key);
  }

  /** "550e8400-e29b-41d4-a716-446655440000", written group by group, is a valid key. */
  lemma AcceptsVersion4Key()
    ensures ValidIdempotencyKey("550e8400" + "-" + "e29b" + "-" + "41d4" + "-" + "a716" + "-" + "446655440000")
  {
    ValidFromGroups("550e8400", "e29b", "41d4", "a716", "446655440000");
  }

  /** "invalid-key-format" is rejected. */
  lemma RejectsMalformedKey()
    ensures !ValidIdempotencyKey("invalid-key-format")
  {
    PatternAt(0);
  }

  /** The same UUID with version digit 1 is rejected. */
  lemma RejectsVersion1Key()
    ensures !ValidIdempotencyKey("550e8400-e29b-11d4-a716-446655440000")
  {
    ValidKeyIsUuidV4("550e8400-e29b-11d4-a716-446655440000");
  }
}
