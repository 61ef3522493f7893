/** The catalogue entities the storefront receives from its data source. */
module Types {
  import opened Wrappers

  /** The category a product is filed under; `name` is what the list filters on. */
  datatype Category = Category(id: int, name: string, image: string)

  /**
   * A catalogue product. The price is a JavaScript number, kept as a real;
   * the first image is the default one and the list of images may be empty.
   */
  datatype Product = Product(
    id: int,
    title: string,
    price: real,
    description: string,
    category: Category,
    images: seq<string>,
    quantity: Option<int>)
}
