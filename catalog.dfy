/**
 * The product and shop rows the core reads (store.models and shops/models.py are
 * not part of this model; only the fields the core touches are kept).
 */
module Catalog {
  import opened Wrappers
  import opened Ids

  datatype Product = Product(
    name: string,
    price: real,
    stock: int,
    isActive: bool,
    shop: Option<ShopId>,
    category: Option<CategoryId>)

  datatype Shop = Shop(owner: UserId, isActive: bool)

  /** `Product.objects.get(id=pid, is_active=True)` succeeds. */
  predicate IsLive(products: map<ProductId, Product>, pid: ProductId) {
    pid in products && products[pid].isActive
  }

  /** The product table; `stock` is the field orders update in place. */
  class Inventory {
    var products: map<ProductId, Product>

    constructor (products: map<ProductId, Product>)
      ensures this.products == products
    {
      this.products := products;
    }
  }
}
