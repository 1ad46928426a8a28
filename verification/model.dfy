/** The catalog and content data shapes, restricted to the fields the
    helpers read (identity fields are kept so that records stay
    distinguishable).  TypeScript `number` fields that are identifiers or
    counts become `int`. */
module Model {

  /** One entry of `Product.images`. */
  datatype ProductImage = ProductImage(id: int, src: string, name: string, alt: string)

  /** The subset of a catalog product the helpers look at. */
  datatype Product = Product(
    id: int,
    name: string,
    slug: string,
    sale_price: string,
    on_sale: bool,
    stock_status: string,
    images: seq<ProductImage>
  )

  /** A product category; only its identity and slug are read. */
  datatype Category = Category(id: int, name: string, slug: string, count: int)

  /** The store snapshot returned by the store-info endpoint. */
  datatype StoreInfo = StoreInfo(
    name: string,
    description: string,
    currency: string,
    currency_symbol: string,
    country: string,
    timezone: string,
    date_format: string,
    time_format: string
  )

  /** An untyped JSON value, for the payloads the source types as `any`
      (the connection-test result, testimonials, FAQs). */
  datatype Json =
    | JNull
    | JBool(b: bool)
    | JNumber(n: int)
    | JString(s: string)
    | JArray(elems: seq<Json>)
    | JObject(members: seq<(string, Json)>)
}
