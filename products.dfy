/**
 * A catalogue record as the product API delivers it. The cart reads its `id` and `price`,
 * the home screen's search reads its `title`; `image` is carried along untouched.
 * Prices are whole cents rather than JavaScript floating-point numbers.
 */
module Products {
  import opened Wrappers

  datatype Product = Product(id: int, title: Option<string>, price: int, image: string)
}
