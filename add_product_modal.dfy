/**
 * The "Add Product" modal (src/components/AddProductModal.tsx): a form whose
 * fields are set one by one and whose submit appends a new product, stamped
 * with the current time as its id, to the inventory page's list.
 */
module AddProductModal {
  import opened Wrappers
  import opened AssetTypes
  import opened ProductInventory

  /** The product the form submits: no rating, description, tags or dates. */
  function FormProduct(id: int, name: string, category: string, price: int, quantity: int, inStock: bool)
    : Product
  {
    Product(id, name, category, Some(quantity), price, inStock, None, None, None, None, None)
  }

  /** Appending does not check ids: the new product is added even when its id is
      already taken, and a later delete of that id removes it together with every
      earlier product carrying the same id. */
  lemma AppendIgnoresDuplicates(products: seq<Product>, p: Product)
    ensures CountId(products + [p], p.id) == CountId(products, p.id) + 1
    ensures WithoutId(products + [p], p.id) == WithoutId(products, p.id)
  {
    CountIdConcat(products, [p], p.id);
    WithoutIdConcat(products, [p], p.id);
  }

  class AddProductForm {
    var name: string
    var category: string
    var price: int
    var quantity: int
    var inStock: bool

    /** Nothing in the form ever clears `inStock`. */
    ghost predicate Valid()
      reads this
    {
      inStock
    }

    constructor()
      ensures Valid()
      ensures name == "" && category == "" && price == 0 && quantity == 0 && inStock
    {
      name := "";
      category := "";
      price := 0;
      quantity := 0;
      inStock := true;
    }

    method SetName(value: string)
      requires Valid()
      modifies this`name
      ensures Valid() && name == value
    {
      name := value;
    }

    method SetCategory(value: string)
      requires Valid()
      modifies this`category
      ensures Valid() && category == value
    {
      category := value;
    }

    method SetPrice(value: int)
      requires Valid()
      modifies this`price
      ensures Valid() && price == value
    {
      price := value;
    }

    method SetQuantity(value: int)
      requires Valid()
      modifies this`quantity
      ensures Valid() && quantity == value
    {
      quantity := value;
    }

    /** `handleSubmit`: appends the form's product, with id `now`, after every existing
        product, then closes the modal. */
    method HandleSubmit(inventory: Inventory, now: int)
      requires Valid()
      modifies inventory`products, inventory`isAddOpen
      ensures inventory.products == old(inventory.products) + [FormProduct(now, name, category, price, quantity, true)]
      ensures |inventory.products| == |old(inventory.products)| + 1
      ensures inventory.products[..|old(inventory.products)|] == old(inventory.products)
      ensures inventory.products[|old(inventory.products)|].inStock
      ensures !inventory.isAddOpen
    {
      inventory.products := inventory.products + [FormProduct(now, name, category, price, quantity, inStock)];
      inventory.isAddOpen := false;
    }
  }
}
