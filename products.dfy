/**
 * The in-memory product store and its five request handlers.
 *
 * The store is a process-wide ordered collection of products together with
 * the counter that supplies the next id. Every handler runs to completion
 * over that state and produces a status code and a response envelope
 * { success, message, data }.
 */
module Products {

  import opened Wrappers
  import Decimal

  /** A price as the request body carried it; the handlers never compute with it. */
  type Price = int

  /**
   * A stored product. `name` and `price` are optional because an update
   * copies the body's fields as they are, so a field the body omits is
   * stored as `undefined` (None).
   */
  datatype Product = Product(id: int, name: Option<string>, price: Option<Price>)

  /** The JSON body of a create or update request; None is an absent field. */
  datatype Body = Body(name: Option<string>, price: Option<Price>)

  /** The `data` member of the envelope. */
  datatype Payload = Null | One(product: Product) | Many(products: seq<Product>)

  /** The status code together with the envelope { success, message, data }. */
  datatype Response = Response(status: int, success: bool, message: string, data: Payload)

  const ListedMessage := "Products retrieved successfully."
  const FoundMessage := "Product retrieved successfully."
  const CreatedMessage := "Product created successfully."
  const UpdatedMessage := "Product updated successfully."
  const DeletedMessage := "Product deleted successfully."
  const InvalidMessage := "Invalid input. Name and price are required."

  /** The envelope invariant: success exactly on a 2xx status, and no data on failure. */
  predicate WellFormed(r: Response)
  {
    (r.success <==> 200 <= r.status < 300) && (!r.success ==> r.data == Null)
  }

  // ---------------------------------------------------------------------------
  // The path id and the 404 envelope

  /**
   * `p.id === id` where `id` is the parsed path parameter; a failed parse is
   * NaN, which is equal to nothing.
   */
  predicate HasId(p: Product, id: Option<int>)
  {
    id == Some(p.id)
  }

  /** The parsed id as interpolated into a message. */
  function IdText(id: Option<int>): string
  {
    match id
    case None => "NaN"
    case Some(n) => Decimal.IntText(n)
  }

  function NotFoundMessage(id: Option<int>): string
  {
    "Product with ID " + IdText(id) + " not found."
  }

  function NotFound(id: Option<int>): Response
  {
    Response(404, false, NotFoundMessage(id), Null)
  }

  /** The 404 message names the requested id: different ids give different messages. */
  lemma {:induction false} NotFoundMessageNamesId(a: Option<int>, b: Option<int>)
    requires NotFoundMessage(a) == NotFoundMessage(b)
    ensures a == b
  {
    var prefix, suffix := "Product with ID ", " not found.";
    var m := NotFoundMessage(a);
    assert |IdText(a)| == |IdText(b)|;
    assert IdText(a) == m[|prefix|..|m| - |suffix|];
    assert IdText(b) == m[|prefix|..|m| - |suffix|];
    if a.Some? && b.Some? {
      Decimal.IntTextInjective(a.value, b.value);
    }
  }

  // ---------------------------------------------------------------------------
  // Invariants of the collection

  predicate UniqueIds(ps: seq<Product>)
  {
    forall i, j :: 0 <= i < j < |ps| ==> ps[i].id != ps[j].id
  }

  /** The records the store starts with. */
  function Seed(): seq<Product>
  {
    [ Product(1, Some("Laptop"), Some(1200)),
      Product(2, Some("Keyboard"), Some(75)),
      Product(3, Some("Mouse"), Some(25)) ]
  }

  // ---------------------------------------------------------------------------
  // Lookups: `findIndex`, `find` and `filter` over the collection

  /** `ps.findIndex(p => p.id === id)`: the first matching index, or -1. */
  function FindIndex(ps: seq<Product>, id: Option<int>): (k: int)
    ensures -1 <= k < |ps|
    ensures k == -1 <==> forall i :: 0 <= i < |ps| ==> !HasId(ps[i], id)
    ensures 0 <= k ==> HasId(ps[k], id) && forall i :: 0 <= i < k ==> !HasId(ps[i], id)
  {
    if ps == [] then -1
    else if HasId(ps[0], id) then 0
    else
      var k := FindIndex(ps[1..], id);
      if k == -1 then -1 else k + 1
  }

  /** `ps.find(p => p.id === id)`: the first matching product, if any. */
  function Find(ps: seq<Product>, id: Option<int>): (r: Option<Product>)
    ensures r == None <==> forall i :: 0 <= i < |ps| ==> !HasId(ps[i], id)
    ensures r != None ==> exists k :: 0 <= k < |ps| && ps[k] == r.value && HasId(ps[k], id)
                                      && forall i :: 0 <= i < k ==> !HasId(ps[i], id)
  {
    var k := FindIndex(ps, id);
    if k == -1 then None else Some(ps[k])
  }

  /** `ps.filter(p => p.id !== id)`: the collection without the products that match. */
  function Without(ps: seq<Product>, id: Option<int>): (r: seq<Product>)
    ensures |r| <= |ps|
    ensures forall p :: p in r <==> p in ps && !HasId(p, id)
    ensures |r| == |ps| <==> forall i :: 0 <= i < |ps| ==> !HasId(ps[i], id)
    ensures |r| == |ps| ==> r == ps
  {
    if ps == [] then []
    else
      assert ps == [ps[0]] + ps[1..];
      if HasId(ps[0], id) then Without(ps[1..], id)
      else [ps[0]] + Without(ps[1..], id)
  }

  /** With unique ids, an id matches at most one index. */
  lemma UniqueMatch(ps: seq<Product>, id: Option<int>, k: int)
    requires UniqueIds(ps)
    requires 0 <= k < |ps| && HasId(ps[k], id)
    ensures FindIndex(ps, id) == k
    ensures forall i :: 0 <= i < |ps| && i != k ==> !HasId(ps[i], id)
  {
  }

  /**
   * With unique ids, filtering out the id of entry k removes exactly that
   * entry and keeps the others in their order.
   */
  lemma {:induction false} WithoutRemovesOne(ps: seq<Product>, k: int)
    requires UniqueIds(ps)
    requires 0 <= k < |ps|
    ensures Without(ps, Some(ps[k].id)) == ps[..k] + ps[k + 1..]
  {
    var id := Some(ps[k].id);
    if k == 0 {
      UniqueMatch(ps, id, 0);
      assert Without(ps[1..], id) == ps[1..];
    } else {
      assert ps[0].id != ps[k].id;
      var tail := ps[1..];
      assert UniqueIds(tail);
      assert tail[k - 1] == ps[k];
      WithoutRemovesOne(tail, k - 1);
      ConsSplit(ps, k);
    }
  }

  lemma ConsSplit(ps: seq<Product>, k: int)
    requires 0 < k < |ps|
    ensures [ps[0]] + (ps[1..][..k - 1] + ps[1..][k..]) == ps[..k] + ps[k + 1..]
  {
    assert [ps[0]] + ps[1..][..k - 1] == ps[..k];
  }

  /** Dropping one entry keeps ids unique. */
  lemma RemovalKeepsUnique(ps: seq<Product>, k: int)
    requires UniqueIds(ps)
    requires 0 <= k < |ps|
    ensures UniqueIds(ps[..k] + ps[k + 1..])
  {
    var r := ps[..k] + ps[k + 1..];
    forall i, j | 0 <= i < j < |r|
      ensures r[i].id != r[j].id
    {
      var i' := if i < k then i else i + 1;
      var j' := if j < k then j else j + 1;
      assert r[i] == ps[i'] && r[j] == ps[j'];
    }
  }

  // ---------------------------------------------------------------------------
  // The store and its handlers

  /** `createProduct` refuses a falsy name (absent or empty) or an absent price. */
  predicate Acceptable(body: Body)
  {
    body.name != None && body.name != Some("") && body.price != None
  }

  class Store {
    var products: seq<Product>
    var nextId: int
    /** Every id the store has handed out, including ids since deleted. */
    ghost var issued: set<int>

    /** Ids are unique, were all handed out, and all lie below `nextId`. */
    ghost predicate Valid()
      reads this
    {
      && UniqueIds(products)
      && (forall i :: 0 <= i < |products| ==> products[i].id in issued)
      && (forall x :: x in issued ==> x < nextId)
    }

    /** The state at startup: three seed records and the counter at 4. */
    constructor ()
      ensures Valid()
      ensures products == Seed() && nextId == 4 && issued == {1, 2, 3}
    {
      products := Seed();
      nextId := 4;
      issued := {1, 2, 3};
    }

    /** GET /api/products */
    method GetProducts() returns (r: Response)
      ensures WellFormed(r)
      ensures r == Response(200, true, ListedMessage, Many(products))
    {
      r := Response(200, true, ListedMessage, Many(products));
    }

    /** GET /api/products/:id */
    method GetProductById(id: Option<int>) returns (r: Response)
      ensures WellFormed(r)
      ensures r.status == 200 <==> exists i :: 0 <= i < |products| && HasId(products[i], id)
      ensures r.status == 200 ==>
                r.success && r.message == FoundMessage
                && r.data.One? && r.data.product in products && HasId(r.data.product, id)
                && r.data.product == products[FindIndex(products, id)]
      ensures r.status != 200 ==> r == NotFound(id)
      ensures id == None ==> r == NotFound(id)
    {
      match Find(products, id)
      case Some(p) =>
        r := Response(200, true, FoundMessage, One(p));
      case None =>
        r := NotFound(id);
    }

    /** POST /api/products */
    method CreateProduct(body: Body) returns (r: Response)
      requires Valid()
      modifies this
      ensures Valid()
      ensures WellFormed(r)
      ensures r.status == 400 <==> !Acceptable(body)
      ensures !Acceptable(body) ==>
                r == Response(400, false, InvalidMessage, Null)
                && products == old(products) && nextId == old(nextId) && issued == old(issued)
      ensures Acceptable(body) ==>
                var p := Product(old(nextId), body.name, body.price);
                && p.id !in old(issued)
                && products == old(products) + [p]
                && nextId == old(nextId) + 1
                && issued == old(issued) + {p.id}
                && r == Response(201, true, CreatedMessage, One(p))
                && Find(products, Some(p.id)) == Some(p)
    {
      if !Acceptable(body) {
        return Response(400, false, InvalidMessage, Null);
      }
      var p := Product(nextId, body.name, body.price);
      nextId := nextId + 1;
      products := products + [p];
      issued := issued + {p.id};
      UniqueMatch(products, Some(p.id), |products| - 1);
      r := Response(201, true, CreatedMessage, One(p));
    }

    /** PUT /api/products/:id */
    method UpdateProduct(id: Option<int>, body: Body) returns (r: Response)
      requires Valid()
      modifies this
      ensures Valid()
      ensures WellFormed(r)
      ensures nextId == old(nextId) && issued == old(issued)
      ensures r.status == 404 <==> forall i :: 0 <= i < |old(products)| ==> !HasId(old(products)[i], id)
      ensures r.status == 404 ==> r == NotFound(id) && products == old(products)
      ensures r.status != 404 ==>
                var k := FindIndex(old(products), id);
                && products == old(products)[k := old(products)[k].(name := body.name, price := body.price)]
                && products[k].id == old(products)[k].id
                && r == Response(200, true, UpdatedMessage, One(products[k]))
    {
      var k := FindIndex(products, id);
      if k == -1 {
        return NotFound(id);
      }
      var updated := products[k].(name := body.name, price := body.price);
      products := products[k := updated];
      r := Response(200, true, UpdatedMessage, One(updated));
    }

    /** DELETE /api/products/:id */
    method DeleteProduct(id: Option<int>) returns (r: Response)
      requires Valid()
      modifies this
      ensures Valid()
      ensures WellFormed(r) && r.data == Null
      ensures nextId == old(nextId) && issued == old(issued)
      ensures products == Without(old(products), id)
      ensures r.status == 404 <==> forall i :: 0 <= i < |old(products)| ==> !HasId(old(products)[i], id)
      ensures r.status == 404 ==> r == NotFound(id) && products == old(products)
      ensures r.status != 404 ==>
                var k := FindIndex(old(products), id);
                && r == Response(200, true, DeletedMessage, Null)
                && products == old(products)[..k] + old(products)[k + 1..]
                && |products| == |old(products)| - 1
      ensures Find(products, id) == None
    {
      var initialLength := |products|;
      products := Without(products, id);
      if |products| == initialLength {
        return NotFound(id);
      }
      var k := FindIndex(old(products), id);
      WithoutRemovesOne(old(products), k);
      RemovalKeepsUnique(old(products), k);
      r := Response(200, true, DeletedMessage, Null);
    }
  }

  /**
   * A client of the store: on a fresh store, creating a "Monitor" priced 300
   * hands out id 4, and fetching id 4 returns the same record.
   */
  method MonitorScenario() returns (created: Response, fetched: Response)
    ensures created == Response(201, true, CreatedMessage, One(Product(4, Some("Monitor"), Some(300))))
    ensures fetched == Response(200, true, FoundMessage, One(Product(4, Some("Monitor"), Some(300))))
  {
    var store := new Store();
    created := store.CreateProduct(Body(Some("Monitor"), Some(300)));
    assert store.products[3].id == 4;
    UniqueMatch(store.products, Some(4), 3);
    fetched := store.GetProductById(Some(4));
  }
}
