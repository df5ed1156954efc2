/**
 * The product record of the inventory page (src/assets/types.ts). Prices are
 * integer cents; dates are instants.
 */
module AssetTypes {
  import opened Wrappers

  datatype Product = Product(
    id: int,
    name: string,
    category: string,
    quantity: Option<int>,
    price: int,
    inStock: bool,
    rating: Option<int>,
    description: Option<string>,
    tags: Option<seq<string>>,
    createdAt: Option<int>,
    updatedAt: Option<int>)
}
