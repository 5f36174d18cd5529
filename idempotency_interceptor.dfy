/**
  The idempotency interceptor: a request that carries an `Idempotency-Key`
  header and comes from a signed-in user is answered from the cache when
  the same user sent the same key before; otherwise the handler runs and
  its response is cached. The handler is code outside this model, so what
  it answers is a parameter (`handled`), and `handlerRan` says whether that
  answer was used.
 */
module IdempotencyInterceptors {
  import opened Wrappers
  import opened Exceptions
  import opened Idempotency
  import opened IdempotencyDecorator

  /** The header as `${...}` renders it, or `None` when it is falsy (missing or empty). */
  function KeyText(header: Header): (r: Option<string>)
    ensures r.None? <==> header.Absent? || header == Text("")
    ensures r.Some? ==> r.value != "" || header.NonString?
  {
    match header
    case Absent => None
    case Text(value) => if value == "" then None else Some(value)
    case NonString(text) => Some(text)
  }

  /** What an interception answers, whether the handler's answer was used, and the store after it. */
  datatype Reply = Reply(data: Result<string, Exception>, handlerRan: bool, store: map<string, Entry>)

  /** A signed-in user's id, `None` (or empty) when the request is anonymous. */
  predicate SignedIn(userId: Option<string>) {
    userId.Some? && userId.value != ""
  }

  /**
    `intercept` on the store's contents: no key or no user skips the cache;
    a cached response is replayed without running the handler; otherwise
    the handler's answer is returned and, when it is a response and not an
    error, cached with the request's method, url and time.
   */
  function Interception(store: map<string, Entry>, header: Header, userId: Option<string>,
                        httpMethod: string, url: string, timestamp: string,
                        handled: Result<string, Exception>): Reply
  {
    var key := KeyText(header);
    if key.None? || !SignedIn(userId) then Reply(handled, true, store)
    else match Lookup(store, key.value, userId.value)
      case Some(cached) => Reply(Ok(cached.data), false, store)
      case None =>
        if handled.Err? then Reply(handled, true, store)
        else Reply(handled, true, Stored(store, key.value, userId.value,
                                          CachedResponse(handled.value, timestamp, httpMethod, url), None))
  }

  /** Without a key or a user the interceptor is transparent: the handler runs and nothing is cached. */
  lemma SkipIsTransparent(store: map<string, Entry>, header: Header, userId: Option<string>,
                          httpMethod: string, url: string, timestamp: string, handled: Result<string, Exception>)
    requires KeyText(header).None? || !SignedIn(userId)
    ensures Interception(store, header, userId, httpMethod, url, timestamp, handled) == Reply(handled, true, store)
  {
  }

  /**
    Once a request with a key has been answered with a response, a second
    request from the same user with the same key gets the same response,
    without running the handler and without changing the store, whatever
    the second handler would have answered.
   */
  lemma RepeatReplaysFirstResponse(store: map<string, Entry>, header: Header, userId: Option<string>,
                                   httpMethod: string, url: string, timestamp: string, handled: Result<string, Exception>,
                                   httpMethod2: string, url2: string, timestamp2: string, handled2: Result<string, Exception>)
    requires KeyText(header).Some? && SignedIn(userId)
    requires Interception(store, header, userId, httpMethod, url, timestamp, handled).data.Ok?
    ensures var first := Interception(store, header, userId, httpMethod, url, timestamp, handled);
            var second := Interception(first.store, header, userId, httpMethod2, url2, timestamp2, handled2);
            second == Reply(first.data, false, first.store)
  {
    var key, user := KeyText(header).value, userId.value;
    if Lookup(store, key, user).None? {
      LookupAfterStore(store, key, user, CachedResponse(handled.value, timestamp, httpMethod, url), None);
    }
  }

  /** A handler error is passed on and not cached, so a retry with the same key runs the handler again. */
  lemma FailureIsNotCached(store: map<string, Entry>, header: Header, userId: Option<string>,
                           httpMethod: string, url: string, timestamp: string, failure: Exception,
                           handled2: Result<string, Exception>)
    requires KeyText(header).Some? && SignedIn(userId) ==> Lookup(store, KeyText(header).value, userId.value).None?
    ensures var first := Interception(store, header, userId, httpMethod, url, timestamp, Err(failure));
            first == Reply(Err(failure), true, store)
            && Interception(first.store, header, userId, httpMethod, url, timestamp, handled2).handlerRan
  {
  }

  /**
    An interception never changes what another user finds in the cache:
    user ids are UUIDs and hold no ':'.
   */
  lemma OtherUsersUnaffected(store: map<string, Entry>, header: Header, userId: Option<string>,
                             httpMethod: string, url: string, timestamp: string, handled: Result<string, Exception>,
                             otherKey: string, otherUserId: string)
    requires userId.Some? && ':' !in userId.value && ':' !in otherUserId && userId.value != otherUserId
    ensures Lookup(Interception(store, header, userId, httpMethod, url, timestamp, handled).store, otherKey, otherUserId)
            == Lookup(store, otherKey, otherUserId)
  {
    var key := KeyText(header);
    if key.Some? && SignedIn(userId) && Lookup(store, key.value, userId.value).None? && handled.Ok? {
      OtherPairsUnaffected(store, key.value, userId.value,
                           CachedResponse(handled.value, timestamp, httpMethod, url), None, otherKey, otherUserId);
    }
  }

  /** `IdempotencyInterceptor`, over the service whose store it reads and fills. */
  class IdempotencyInterceptor {
    const service: IdempotencyService

    constructor (service: IdempotencyService)
      ensures this.service == service
    {
      this.service := service;
    }

    /** `intercept`: the answer, whether the handler's answer was used, and the new store, as `Interception` says. */
    method Intercept(header: Header, userId: Option<string>, httpMethod: string, url: string,
                     timestamp: string, handled: Result<string, Exception>)
      returns (data: Result<string, Exception>, handlerRan: bool)
      modifies service
      ensures Reply(data, handlerRan, service.store)
              == Interception(old(service.store), header, userId, httpMethod, url, timestamp, handled)
    {
      var key := KeyText(header);
      if key.None? || userId.None? || userId.value == "" {
        return handled, true;
      }
      var existing := service.GetProcessedResponse(key.value, userId.value);
      if existing.Some? {
        return Ok(existing.value.data), false;
      }
      if handled.Ok? {
        service.StoreResponse(key.value, userId.value, CachedResponse(handled.value, timestamp, httpMethod, url), None);
      }
      return handled, true;
    }
  }
}
