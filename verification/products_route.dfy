/**
 * The `/api/products` routes: list newest first, and create with the
 * 'General' and empty-description defaults for falsy fields.
 */
module ProductsRoute {
  import Seqs
  import Text

  /** The price is kept as the text the client sent; no arithmetic is done on it. */
  datatype ProductRow = ProductRow(id: nat, name: string, price: string, image: string, vendor: string,
                                   category: string, description: string, createdAt: int)

  const DefaultCategory := "General"

  function NewestFirst(p: ProductRow): int { -p.createdAt }

  /** The row the INSERT stores for these request fields. */
  function NewRow(id: nat, name: string, price: string, image: string, vendor: string,
                  category: string, description: string, now: int): (row: ProductRow)
    ensures row.category == (if category == "" then DefaultCategory else category)
    ensures row.description == description
    ensures (row.id, row.name, row.price, row.image, row.vendor, row.createdAt) == (id, name, price, image, vendor, now)
  {
    ProductRow(id, name, price, image, vendor, Text.OrDefault(category, DefaultCategory),
               Text.OrDefault(description, ""), now)
  }

  /** The products table with its SERIAL id counter. */
  class ProductsTable {
    var rows: seq<ProductRow>
    var nextId: nat

    ghost predicate Valid()
      reads this
    {
      forall i :: 0 <= i < |rows| ==> rows[i].id < nextId
    }

    constructor()
      ensures Valid() && rows == [] && nextId == 1
    {
      rows := [];
      nextId := 1;
    }

    /** `GET /`: all rows, newest `created_at` first. */
    function List(): (r: seq<ProductRow>)
      reads this
      ensures multiset(r) == multiset(rows)
      ensures forall i, j :: 0 <= i < j < |r| ==> r[i].createdAt >= r[j].createdAt
    {
      var sorted := Seqs.SortBy(rows, NewestFirst);
      assert forall i, j :: 0 <= i < j < |sorted| ==> NewestFirst(sorted[i]) <= NewestFirst(sorted[j]);
      sorted
    }

    /** `POST /`: insert with defaults, answer the row as re-read by its fresh id. */
    method Create(name: string, price: string, image: string, vendor: string,
                  category: string, description: string, now: int) returns (product: ProductRow)
      requires Valid()
      modifies this
      ensures Valid()
      ensures product == NewRow(old(nextId), name, price, image, vendor, category, description, now)
      ensures forall i :: 0 <= i < |old(rows)| ==> old(rows)[i].id != product.id
      ensures rows == old(rows) + [product] && nextId == old(nextId) + 1
    {
      product := NewRow(nextId, name, price, image, vendor, category, description, now);
      rows := rows + [product];
      nextId := nextId + 1;
    }
  }
}
