/**
 * The product catalog of src/modules/product/product.controller.ts.
 *
 * The data store's product table is the map `rows` of a `Catalog` object;
 * the handlers read it or change it in place. Prices are the values
 * `parseFloat` produced, as reals (no floating-point rounding).
 */
module Products {
  import opened Wrappers
  import opened Http

  datatype Product = Product(name: string, description: string, price: real, imageUrl: Option<string>)

  /**
   * One field of a JSON request body: left out (undefined), an explicit
   * `null`, or a value. The data store skips an undefined field and writes
   * `null` as NULL.
   */
  datatype Field<T> = Omitted | Null | Value(value: T)
  {
    /** The column value the field writes: NULL for `null`, and also for a field left out of a create. */
    function Stored(): (o: Option<T>)
      ensures o.Some? <==> Value?
      ensures o.Some? ==> o.value == value
    {
      if Value? then Some(value) else None
    }
  }

  /** JavaScript truthiness of a string-or-null body field. */
  predicate Given(f: Field<string>)
  {
    f.Value? && f.value != ""
  }

  /**
   * The body `{ name, description, price, imageUrl }` of a create or update
   * request. The price is None where the client left it out.
   */
  datatype ProductInput = ProductInput(name: Field<string>, description: Field<string>,
                                       price: Option<real>, imageUrl: Field<string>)

  const MISSING_FIELDS := "Missing required fields: name, description, price"
  const PRODUCT_NOT_FOUND := "Product not found"
  const PRODUCT_DELETED := "Product deleted successfully"
  const UPDATE_FAILED := "Error updating product"

  /** What `createProduct` demands before it writes: a non-empty name and description, and a price. */
  predicate Creatable(input: ProductInput)
  {
    Given(input.name) && Given(input.description) && input.price.Some?
  }

  /**
   * The data of an update. A field the client supplied replaces the stored
   * one, and a field left out keeps its stored value. A `null` image clears
   * the image. A `null` name or description is refused by the store, since
   * those columns are not nullable, so there is no patched record (None).
   */
  function Patch(p: Product, input: ProductInput): Option<Product>
  {
    if input.name.Null? || input.description.Null? then None
    else
      Some(Product(if input.name.Value? then input.name.value else p.name,
                   if input.description.Value? then input.description.value else p.description,
                   input.price.GetOr(p.price),
                   if input.imageUrl.Omitted? then p.imageUrl else input.imageUrl.Stored()))
  }

  /** An update that supplies nothing leaves the product as it was. */
  lemma PatchNothing(p: Product)
    ensures Patch(p, ProductInput(Omitted, Omitted, None, Omitted)) == Some(p)
  {
  }

  /**
   * The update is refused exactly when it sets the name or the description to
   * `null`. Otherwise exactly the supplied fields change: each ends at the
   * supplied value, or at the stored one when omitted, and a `null` image
   * becomes no image.
   */
  lemma PatchFields(p: Product, input: ProductInput)
    ensures Patch(p, input).None? <==> input.name.Null? || input.description.Null?
    ensures Patch(p, input).Some? ==>
            var q := Patch(p, input).value;
            && (input.name.Value? ==> q.name == input.name.value)
            && (input.name.Omitted? ==> q.name == p.name)
            && (input.description.Value? ==> q.description == input.description.value)
            && (input.description.Omitted? ==> q.description == p.description)
            && (input.price.Some? ==> q.price == input.price.value)
            && (input.price.None? ==> q.price == p.price)
            && (input.imageUrl.Value? ==> q.imageUrl == Some(input.imageUrl.value))
            && (input.imageUrl.Null? ==> q.imageUrl.None?)
            && (input.imageUrl.Omitted? ==> q.imageUrl == p.imageUrl)
  {
  }

  /** Applying the same update twice is the same as applying it once. */
  lemma PatchIdempotent(p: Product, input: ProductInput)
    ensures Patch(p, input).Some? ==> Patch(Patch(p, input).value, input) == Patch(p, input)
  {
  }

  class Catalog {
    /** The product table: id to record. */
    var rows: map<Id, Product>
    /** The next id the data store hands out. */
    var nextId: Id

    ghost predicate Valid()
      reads this
    {
      forall id :: id in rows ==> id < nextId
    }

    constructor ()
      ensures Valid() && rows == map[]
    {
      rows := map[];
      nextId := 0;
    }

    /** `getProducts`: every product in the table. */
    method GetProducts() returns (r: Reply<map<Id, Product>>)
      ensures r.Data? && r.status == 200
      ensures forall id :: id in r.data <==> id in rows
      ensures forall id :: id in r.data ==> r.data[id] == rows[id]
    {
      r := Data(200, rows);
    }

    /** `getOneProduct`: the product with that id, or 404. */
    method GetOneProduct(id: Id) returns (r: Reply<Product>)
      ensures id in rows ==> r == Data(200, rows[id])
      ensures id !in rows ==> r == Message(404, PRODUCT_NOT_FOUND)
    {
      if id in rows {
        r := Data(200, rows[id]);
      } else {
        r := Message(404, PRODUCT_NOT_FOUND);
      }
    }

    /**
     * `createProduct`: a request without a name, a description or a price
     * gets 400 and writes nothing; otherwise exactly one new record holding
     * the given fields is inserted under a fresh id, and no other record changes.
     */
    method CreateProduct(input: ProductInput) returns (r: Reply<(Id, Product)>)
      requires Valid()
      modifies this
      ensures Valid()
      ensures !Creatable(input) ==> r == Message(400, MISSING_FIELDS) && rows == old(rows) && nextId == old(nextId)
      ensures Creatable(input) ==>
                var p := Product(input.name.value, input.description.value, input.price.value, input.imageUrl.Stored());
                && r == Data(201, (old(nextId), p))
                && old(nextId) !in old(rows)
                && rows == old(rows)[old(nextId) := p]
    {
      if !Creatable(input) {
        r := Message(400, MISSING_FIELDS);
        return;
      }
      var p := Product(input.name.value, input.description.value, input.price.value, input.imageUrl.Stored());
      var id := nextId;
      rows := rows[id := p];
      nextId := nextId + 1;
      r := Data(201, (id, p));
    }

    /**
     * `updateProduct`. A `null` name or description fails the store's
     * validation before any lookup: 500 and the table is unchanged. A missing
     * id gets 404 (the store's P2025 error) and the table is unchanged.
     * Otherwise only that record changes, to the stored record patched with
     * the supplied fields.
     */
    method UpdateProduct(id: Id, input: ProductInput) returns (r: Reply<Product>)
      requires Valid()
      modifies this
      ensures Valid() && nextId == old(nextId)
      ensures input.name.Null? || input.description.Null? ==>
                r == Message(500, UPDATE_FAILED) && rows == old(rows)
      ensures !input.name.Null? && !input.description.Null? && id !in old(rows) ==>
                r == Message(404, PRODUCT_NOT_FOUND) && rows == old(rows)
      ensures !input.name.Null? && !input.description.Null? && id in old(rows) ==>
                && Patch(old(rows)[id], input).Some?
                && rows == old(rows)[id := Patch(old(rows)[id], input).value]
                && r == Data(200, rows[id])
    {
      if input.name.Null? || input.description.Null? {
        r := Message(500, UPDATE_FAILED);
        return;
      }
      if id !in rows {
        r := Message(404, PRODUCT_NOT_FOUND);
        return;
      }
      var p := Patch(rows[id], input).value;
      rows := rows[id := p];
      r := Data(200, p);
    }

    /** `deleteProduct`: removes exactly the record with that id, or replies 404 when there is none. */
    method DeleteProduct(id: Id) returns (r: Reply<()>)
      requires Valid()
      modifies this
      ensures Valid() && nextId == old(nextId)
      ensures id !in old(rows) ==> r == Message(404, PRODUCT_NOT_FOUND) && rows == old(rows)
      ensures id in old(rows) ==> r == Message(200, PRODUCT_DELETED) && rows == old(rows) - {id}
    {
      if id !in rows {
        r := Message(404, PRODUCT_NOT_FOUND);
        return;
      }
      rows := rows - {id};
      r := Message(200, PRODUCT_DELETED);
    }
  }
}
