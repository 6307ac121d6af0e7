/** The rows of the store's catalogue tables that the modelled components read
    (types/supabase.ts), reduced to the columns they use. */
module Catalog {
  import opened Wrappers

  /** A row of `categories`. */
  datatype Category = Category(id: string, name: string, slug: string, isActive: bool)

  /** A row of `subcategories`; `categoryId` names the parent category. */
  datatype Subcategory = Subcategory(id: string, name: string, slug: string, categoryId: string, isActive: bool)

  /** A row of `products`. Prices are decimal numbers; `compareAtPrice` is nullable. */
  datatype Product = Product(
    id: string,
    name: string,
    price: real,
    compareAtPrice: Option<real>,
    stockQuantity: int,
    lowStockThreshold: int,
    categoryId: Option<string>,
    subcategoryId: Option<string>,
    isActive: bool)

  /** The sort orders of the product listing. */
  datatype SortOption = Newest | PriceAsc | PriceDesc | Popular | Rating
}
