/** The products route (app/api/products/route.js): a module-level list of
    products, seeded from the bundled data, read by GET and appended to by
    POST. */
module Store {
  import opened Products

  /** A POST body: the product fields, and an `id` only if the client sent one. */
  datatype Body = Body(id: Option<int>, fields: Form)

  /** `{ id: now, ...body }`: the spread comes after `id`, so an `id` in the
      body replaces the timestamp; every other field comes from the body. */
  function NewRecord(body: Body, now: int): (p: Product)
    ensures body.id.None? ==> p.id == now
    ensures body.id.Some? ==> p.id == body.id.value
    ensures p.fields == body.fields
  {
    Product(if body.id.Some? then body.id.value else now, body.fields)
  }

  /** The ids stay distinct after a POST exactly when the new record's id is
      not already in use; nothing in the route ensures that. */
  lemma IdsDistinctAfterAppend(ps: seq<Product>, body: Body, now: int)
    requires forall i, j :: 0 <= i < j < |ps| ==> ps[i].id != ps[j].id
    ensures var qs := ps + [NewRecord(body, now)];
      (forall i, j :: 0 <= i < j < |qs| ==> qs[i].id != qs[j].id) <==>
      NewRecord(body, now).id !in Ids(ps)
  {
    var qs := ps + [NewRecord(body, now)];
    if NewRecord(body, now).id in Ids(ps) {
      var i :| 0 <= i < |ps| && Ids(ps)[i] == NewRecord(body, now).id;
      assert qs[i].id == qs[|ps|].id;
    }
  }

  /** Two POSTs in the same millisecond without a body id store two records
      with the same id. */
  lemma SameInstantSameId(b1: Body, b2: Body, now: int)
    requires b1.id.None? && b2.id.None?
    ensures NewRecord(b1, now).id == NewRecord(b2, now).id
  {
  }

  class ProductStore {
    var products: seq<Product>

    /** `let products = data || []`: null stands for a missing snapshot. */
    constructor (snapshot: Option<seq<Product>>)
      ensures products == if snapshot.Some? then snapshot.value else []
    {
      if snapshot.Some? {
        products := snapshot.value;
      } else {
        products := [];
      }
    }

    /** GET: the whole collection, unchanged. */
    method Get() returns (response: seq<Product>)
      ensures response == products
    {
      response := products;
    }

    /** POST: appends one record built from the body and the clock reading
        `now`, and answers with the whole updated collection. */
    method Post(body: Body, now: int) returns (response: seq<Product>)
      modifies this
      ensures products == old(products) + [NewRecord(body, now)]
      ensures |products| == |old(products)| + 1
      ensures products[..|old(products)|] == old(products)
      ensures products[|products| - 1] == NewRecord(body, now)
      ensures response == products
    {
      products := products + [NewRecord(body, now)];
      response := products;
    }
  }
}
