/**
 * The product table of the inventory page (src/pages/ProductInventory.tsx):
 * deleting every product with a given id, and choosing a product to edit.
 */
module ProductInventory {
  import opened Wrappers
  import opened AssetTypes

  /** How many products carry the id `id`. */
  function CountId(products: seq<Product>, id: int): nat
  {
    if products == [] then 0
    else (if products[0].id == id then 1 else 0) + CountId(products[1..], id)
  }

  /** `products.filter(p => p.id !== id)`. */
  function WithoutId(products: seq<Product>, id: int): (r: seq<Product>)
    ensures forall p :: p in r <==> p in products && p.id != id
    ensures |r| <= |products|
  {
    if products == [] then []
    else (if products[0].id == id then [] else [products[0]]) + WithoutId(products[1..], id)
  }

  lemma {:induction false} CountIdConcat(a: seq<Product>, b: seq<Product>, id: int)
    ensures CountId(a + b, id) == CountId(a, id) + CountId(b, id)
  {
    if a == [] {
      assert a + b == b;
    } else {
      assert (a + b)[1..] == a[1..] + b;
      CountIdConcat(a[1..], b, id);
    }
  }

  /** The list shrinks by exactly the number of products carrying `id`, and none is left. */
  lemma {:induction false} WithoutIdCount(products: seq<Product>, id: int)
    ensures |WithoutId(products, id)| == |products| - CountId(products, id)
    ensures CountId(WithoutId(products, id), id) == 0
  {
    if products != [] {
      WithoutIdCount(products[1..], id);
      var head := if products[0].id == id then [] else [products[0]];
      CountIdConcat(head, WithoutId(products[1..], id), id);
    }
  }

  /** Deleting keeps the survivors in their original relative order: the filter of a
      concatenation is the concatenation of the filters. */
  lemma {:induction false} WithoutIdConcat(a: seq<Product>, b: seq<Product>, id: int)
    ensures WithoutId(a + b, id) == WithoutId(a, id) + WithoutId(b, id)
  {
    if a == [] {
      assert a + b == b;
    } else {
      assert (a + b)[1..] == a[1..] + b;
      WithoutIdConcat(a[1..], b, id);
    }
  }

  /** Deleting an id no product carries leaves the list as it was. */
  lemma {:induction false} WithoutIdAbsent(products: seq<Product>, id: int)
    requires forall p :: p in products ==> p.id != id
    ensures WithoutId(products, id) == products
  {
    if products != [] {
      assert products[0] in products;
      assert forall p :: p in products[1..] ==> p in products;
      WithoutIdAbsent(products[1..], id);
      assert products == [products[0]] + products[1..];
    }
  }

  /** Deleting twice is deleting once. */
  lemma WithoutIdIdempotent(products: seq<Product>, id: int)
    ensures WithoutId(WithoutId(products, id), id) == WithoutId(products, id)
  {
    WithoutIdAbsent(WithoutId(products, id), id);
  }

  /** The page's product list and the state of its two modals. */
  class Inventory {
    var products: seq<Product>
    var isAddOpen: bool
    var isEditOpen: bool
    var editingProduct: Option<Product>

    constructor(initial: seq<Product>)
      ensures products == initial
      ensures !isAddOpen && !isEditOpen && editingProduct == None
    {
      products := initial;
      isAddOpen := false;
      isEditOpen := false;
      editingProduct := None;
    }

    /** `handleEdit`: records the product to edit and opens the edit modal. */
    method HandleEdit(product: Product)
      modifies this`editingProduct, this`isEditOpen
      ensures editingProduct == Some(product) && isEditOpen
      ensures products == old(products)
    {
      editingProduct := Some(product);
      isEditOpen := true;
    }

    /** `handleDelete`: drops every product whose id is `id`. */
    method HandleDelete(id: int)
      modifies this`products
      ensures products == WithoutId(old(products), id)
    {
      products := WithoutId(products, id);
    }

    /** The "Add Product +" button. */
    method OpenAddModal()
      modifies this`isAddOpen
      ensures isAddOpen
    {
      isAddOpen := true;
    }

    /** The add modal's `closeModal` callback. */
    method CloseAddModal()
      modifies this`isAddOpen
      ensures !isAddOpen
    {
      isAddOpen := false;
    }

    /** The edit modal's `closeModal` callback; the edited product stays recorded. */
    method CloseEditModal()
      modifies this`isEditOpen
      ensures !isEditOpen
    {
      isEditOpen := false;
    }
  }
}
