/**
  The repository ports the handlers talk to, as in-memory stores. Each store
  has a `readFault` and a `writeFault`: while one holds an exception, every
  lookup, or every save and delete, fails with it and changes nothing,
  standing for a database that is down. Loading
  an aggregate builds a fresh object from the stored fields, as the database
  adapters do.
 */
module Repositories {
  import opened Wrappers
  import opened Exceptions
  import opened Ids
  import opened Users
  import opened Products
  import opened ProductEventTypes
  import opened ProductEvents

  /** A user's stored login secret. */
  datatype Credential = Credential(userId: UserId, passwordHash: string, salt: string)

  /** The user port. */
  class UserRepository {
    var users: map<UserId, UserData>
    var readFault: Option<Exception>
    var writeFault: Option<Exception>

    /** Every user is stored under its own id. */
    ghost predicate Valid()
      reads this
    {
      forall id :: id in users ==> users[id].id == id
    }

    constructor ()
      ensures users == map[] && readFault == None && writeFault == None && Valid()
    {
      users := map[];
      readFault := None;
      writeFault := None;
    }

    /** `findById`: a fresh copy of the stored user, or nothing. */
    method FindById(id: UserId) returns (r: Result<Option<User>, Exception>)
      ensures readFault.Some? ==> r == Err(readFault.value)
      ensures readFault.None? ==> r.Ok? && (r.value.Some? <==> id in users)
      ensures readFault.None? && id in users ==>
                fresh(r.value.value) && r.value.value.Data() == users[id] && r.value.value.uncommitted == []
    {
      if readFault.Some? {
        return Err(readFault.value);
      }
      if id !in users {
        return Ok(None);
      }
      var u := new User.Restore(users[id]);
      return Ok(Some(u));
    }

    /** Some stored user is called `username`. */
    predicate HasUsername(username: string)
      reads this
    {
      exists id :: id in users && users[id].username == username
    }

    /** `findByUsername`: a fresh copy of a user with that name, or nothing. */
    method FindByUsername(username: string) returns (r: Result<Option<User>, Exception>)
      ensures readFault.Some? ==> r == Err(readFault.value)
      ensures readFault.None? ==> r.Ok? && (r.value.Some? <==> HasUsername(username))
      ensures readFault.None? && r.value.Some? ==>
                fresh(r.value.value) && r.value.value.username == username
                && r.value.value.Data() in users.Values && r.value.value.uncommitted == []
    {
      if readFault.Some? {
        return Err(readFault.value);
      }
      if !HasUsername(username) {
        return Ok(None);
      }
      var id :| id in users && users[id].username == username;
      var u := new User.Restore(users[id]);
      return Ok(Some(u));
    }

    /** `save`: inserts or replaces the user's stored fields. */
    method Save(u: User) returns (o: Outcome<Exception>)
      requires Valid()
      modifies this
      ensures Valid()
      ensures writeFault.Some? ==> o == Fail(writeFault.value) && unchanged(this)
      ensures writeFault.None? ==> o == Pass && users == old(users)[u.id := u.Data()]
      ensures readFault == old(readFault) && writeFault == old(writeFault)
    {
      if writeFault.Some? {
        return Fail(writeFault.value);
      }
      users := users[u.id := u.Data()];
      return Pass;
    }
  }

  /** The user-credential port. */
  class CredentialRepository {
    var credentials: map<UserId, Credential>
    var writeFault: Option<Exception>

    constructor ()
      ensures credentials == map[] && writeFault == None
    {
      credentials := map[];
      writeFault := None;
    }

    /** `save`: inserts or replaces the credential of its user. */
    method Save(c: Credential) returns (o: Outcome<Exception>)
      modifies this
      ensures writeFault.Some? ==> o == Fail(writeFault.value) && unchanged(this)
      ensures writeFault.None? ==> o == Pass && credentials == old(credentials)[c.userId := c]
      ensures writeFault == old(writeFault)
    {
      if writeFault.Some? {
        return Fail(writeFault.value);
      }
      credentials := credentials[c.userId := c];
      return Pass;
    }
  }

  /** No id is listed twice. */
  predicate Distinct(ids: seq<ProductId>) {
    forall i, j :: 0 <= i < j < |ids| ==> ids[i] != ids[j]
  }

  /** `order` without `id`. */
  function Without(order: seq<ProductId>, id: ProductId): (rest: seq<ProductId>)
    ensures forall x :: x in rest <==> x in order && x != id
    ensures |rest| <= |order|
  {
    if |order| == 0 then []
    else if order[0] == id then Without(order[1..], id)
    else [order[0]] + Without(order[1..], id)
  }

  /** `Without` keeps a list free of repeats. */
  lemma {:induction false} WithoutDistinct(order: seq<ProductId>, id: ProductId)
    requires Distinct(order)
    ensures Distinct(Without(order, id))
    decreases |order|
  {
    if |order| > 0 {
      assert Distinct(order[1..]) by {
        forall i, j | 0 <= i < j < |order[1..]| ensures order[1..][i] != order[1..][j] {
          assert order[1..][i] == order[i + 1] && order[1..][j] == order[j + 1];
        }
      }
      WithoutDistinct(order[1..], id);
      var tail := Without(order[1..], id);
      if order[0] != id {
        assert order[0] !in order[1..] by {
          forall k | 0 <= k < |order[1..]| ensures order[1..][k] != order[0] {
            assert order[1..][k] == order[k + 1];
          }
        }
        assert order[0] !in tail;
        var rest := [order[0]] + tail;
        assert Without(order, id) == rest;
        forall i, j | 0 <= i < j < |rest| ensures rest[i] != rest[j] {
          if i == 0 {
            assert rest[j] == tail[j - 1] && tail[j - 1] in tail;
          } else {
            assert rest[i] == tail[i - 1] && rest[j] == tail[j - 1];
          }
        }
      } else {
        assert Without(order, id) == tail;
      }
    }
  }

  /** The stored fields of each listed id, in the order listed. */
  function Lookup(ids: seq<ProductId>, m: map<ProductId, ProductData>): (ps: seq<ProductData>)
    requires forall id :: id in ids ==> id in m
    ensures |ps| == |ids|
    ensures forall id :: id in ids ==> m[id] in ps
    ensures forall p :: p in ps ==> p in m.Values
  {
    if |ids| == 0 then [] else [m[ids[0]]] + Lookup(ids[1..], m)
  }

  /** In a store keyed by product id, a stored product is found under its own id. */
  lemma ValuesKeyed(m: map<ProductId, ProductData>)
    requires forall id :: id in m ==> m[id].id == id
    ensures forall p :: p in m.Values ==> p.id in m && m[p.id] == p
  {
    forall p | p in m.Values ensures p.id in m && m[p.id] == p {
      var k :| k in m && m[k] == p;
    }
  }

  /** The stored products of `sellerId`, in the order given. */
  function OfSeller(ps: seq<ProductData>, sellerId: UserId): (r: seq<ProductData>)
    ensures forall p :: p in r <==> p in ps && p.sellerId == sellerId
    ensures |r| <= |ps|
  {
    if |ps| == 0 then []
    else if ps[0].sellerId == sellerId then [ps[0]] + OfSeller(ps[1..], sellerId)
    else OfSeller(ps[1..], sellerId)
  }

  /** What `delete` reports when no row has the id. */
  const DeleteMissing := PlainError("Failed to delete product: Product not found")

  /**
    The pending event of a product read back: the mapper rebuilds it with
    `Product.create`, which records a creation.
   */
  function Loaded(p: ProductData): ProductDomainEvent {
    ProductCreated(p.id, p.name, p.cost, p.amountAvailable, p.sellerId)
  }

  /** The product port; `order` lists the stored ids newest first. */
  class ProductRepository {
    var products: map<ProductId, ProductData>
    var order: seq<ProductId>
    var readFault: Option<Exception>
    var writeFault: Option<Exception>

    /** Every stored id is listed exactly once. */
    ghost predicate Valid()
      reads this
    {
      && Distinct(order)
      && (forall id :: id in order <==> id in products)
      && (forall id :: id in products ==> products[id].id == id)
    }

    constructor ()
      ensures products == map[] && order == [] && readFault == None && writeFault == None && Valid()
    {
      products := map[];
      order := [];
      readFault := None;
      writeFault := None;
    }

    /** Every stored product, newest first. */
    function Listed(): (ps: seq<ProductData>)
      reads this
      requires Valid()
      ensures |ps| == |order|
      ensures forall p :: p in ps <==> p.id in products && products[p.id] == p
    {
      ValuesKeyed(products);
      Lookup(order, products)
    }

    /** `findById`: a fresh product built from the stored fields, or nothing. */
    method FindById(id: ProductId) returns (r: Result<Option<Product>, Exception>)
      ensures readFault.Some? ==> r == Err(readFault.value)
      ensures readFault.None? ==> r.Ok? && (r.value.Some? <==> id in products)
      ensures readFault.None? && id in products ==>
                && fresh(r.value.value) && r.value.value.Data() == products[id]
                && r.value.value.uncommitted == [Loaded(products[id])]
    {
      if readFault.Some? {
        return Err(readFault.value);
      }
      if id !in products {
        return Ok(None);
      }
      var p := new Product.Init(products[id], [Loaded(products[id])]);
      return Ok(Some(p));
    }

    /** The seller already has a product called `name`. */
    predicate HasName(sellerId: UserId, name: string)
      reads this
    {
      exists id :: id in products && products[id].sellerId == sellerId && products[id].name == name
    }

    /** `findBySellerIdAndName`: whether that seller already has a product of that name. */
    method FindBySellerIdAndName(sellerId: UserId, name: string) returns (r: Result<bool, Exception>)
      ensures readFault.Some? ==> r == Err(readFault.value)
      ensures readFault.None? ==> r == Ok(HasName(sellerId, name))
    {
      if readFault.Some? {
        return Err(readFault.value);
      }
      return Ok(HasName(sellerId, name));
    }

    /** `findAll`: every product, newest first. */
    function FindAll(): (r: Result<seq<ProductData>, Exception>)
      reads this
      requires Valid()
      ensures readFault.Some? ==> r == Err(readFault.value)
      ensures readFault.None? ==> r.Ok? && |r.value| == |order| && (forall p :: p in r.value <==> p.id in products && products[p.id] == p)
    {
      if readFault.Some? then Err(readFault.value) else Ok(Listed())
    }

    /** `findBySellerId`: the seller's products, newest first. */
    function FindBySellerId(sellerId: UserId): (r: Result<seq<ProductData>, Exception>)
      reads this
      requires Valid()
      ensures readFault.Some? ==> r == Err(readFault.value)
      ensures readFault.None? ==> r.Ok? && forall p :: p in r.value <==>
                p.id in products && products[p.id] == p && p.sellerId == sellerId
    {
      if readFault.Some? then Err(readFault.value) else Ok(OfSeller(Listed(), sellerId))
    }

    /** `save`: inserts a new product at the front, or replaces a stored one in place. */
    method Save(p: Product) returns (o: Outcome<Exception>)
      requires Valid()
      modifies this
      ensures Valid()
      ensures writeFault.Some? ==> o == Fail(writeFault.value) && unchanged(this)
      ensures writeFault.None? ==> o == Pass && products == old(products)[p.id := p.Data()]
      ensures readFault == old(readFault) && writeFault == old(writeFault)
      ensures writeFault.None? ==> order == if p.id in old(products) then old(order) else [p.id] + old(order)
    {
      if writeFault.Some? {
        return Fail(writeFault.value);
      }
      if p.id !in products {
        order := [p.id] + order;
      }
      products := products[p.id := p.Data()];
      return Pass;
    }

    /** `delete`: removes the product with that id; deleting no row is a failure. */
    method Delete(id: ProductId) returns (o: Outcome<Exception>)
      requires Valid()
      modifies this
      ensures Valid()
      ensures writeFault.Some? ==> o == Fail(writeFault.value) && unchanged(this)
      ensures writeFault.None? && id !in old(products) ==> o == Fail(DeleteMissing) && unchanged(this)
      ensures writeFault.None? && id in old(products) ==>
                o == Pass && products == old(products) - {id} && order == Without(old(order), id)
      ensures readFault == old(readFault) && writeFault == old(writeFault)
    {
      if writeFault.Some? {
        return Fail(writeFault.value);
      }
      if id !in products {
        return Fail(DeleteMissing);
      }
      WithoutDistinct(order, id);
      order := Without(order, id);
      products := products - {id};
      return Pass;
    }
  }

  /** The events of `productId`, optionally of one type only, in the order given. */
  function OfProduct(events: seq<ProductEvent>, productId: ProductId, eventType: Option<ProductEventType>)
    : (r: seq<ProductEvent>)
    ensures forall e :: e in r <==>
              e in events && e.productId == productId && (eventType.Some? ==> e.eventType == eventType.value)
    ensures |r| <= |events|
  {
    if |events| == 0 then []
    else if events[0].productId == productId && (eventType.Some? ==> events[0].eventType == eventType.value) then
      [events[0]] + OfProduct(events[1..], productId, eventType)
    else OfProduct(events[1..], productId, eventType)
  }

  /** The product-event port; `events` lists the stored events newest first. */
  class ProductEventRepository {
    var events: seq<ProductEvent>
    var readFault: Option<Exception>
    var writeFault: Option<Exception>

    constructor ()
      ensures events == [] && readFault == None && writeFault == None
    {
      events := [];
      readFault := None;
      writeFault := None;
    }

    /** `save`: records the event as the newest one. */
    method Save(e: ProductEvent) returns (o: Outcome<Exception>)
      modifies this
      ensures writeFault.Some? ==> o == Fail(writeFault.value) && unchanged(this)
      ensures writeFault.None? ==> o == Pass && events == [e] + old(events)
      ensures readFault == old(readFault) && writeFault == old(writeFault)
    {
      if writeFault.Some? {
        return Fail(writeFault.value);
      }
      events := [e] + events;
      return Pass;
    }

    /** `findByProductId`: the product's events, newest first. */
    function FindByProductId(productId: ProductId): (r: Result<seq<ProductEvent>, Exception>)
      reads this
      ensures readFault.Some? ==> r == Err(readFault.value)
      ensures readFault.None? ==> r.Ok? && forall e :: e in r.value <==> e in events && e.productId == productId
    {
      if readFault.Some? then Err(readFault.value) else Ok(OfProduct(events, productId, None))
    }

    /** `findByProductIdAndType`: the product's events of one type, newest first. */
    function FindByProductIdAndType(productId: ProductId, eventType: ProductEventType)
      : (r: Result<seq<ProductEvent>, Exception>)
      reads this
      ensures readFault.Some? ==> r == Err(readFault.value)
      ensures readFault.None? ==> r.Ok? && forall e :: e in r.value <==>
                e in events && e.productId == productId && e.eventType == eventType
    {
      if readFault.Some? then Err(readFault.value) else Ok(OfProduct(events, productId, Some(eventType)))
    }
  }
}
