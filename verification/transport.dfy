/** The two transport clients, reduced to what one call of each endpoint
    settles to.

    The catalog client (REST API `wc/v3`, key/secret carried in the query
    string) is a family of total functions from request parameters to
    outcomes; the content client (the site's `/wp-json` root, no
    authentication) exposes parameterless endpoints, so each is a single
    outcome.  Construction, credentials and the network itself are not
    modelled: whatever the remote side answers is the parameter. */
module Transport {
  import opened Outcomes
  import opened Model

  datatype SortOrder = Asc | Desc

  /** The filter object passed to `GET products`.  `None` is an absent key.
      `slug` is not among the options callers may pass but is sent by the
      slug lookup. */
  datatype ProductQuery = ProductQuery(
    per_page: Option<int>,
    page: Option<int>,
    category: Option<int>,
    featured: Option<bool>,
    on_sale: Option<bool>,
    search: Option<string>,
    orderby: Option<string>,
    order: Option<SortOrder>,
    slug: Option<string>
  )

  /** The empty filter: no key set. */
  const NoFilter: ProductQuery :=
    ProductQuery(None, None, None, None, None, None, None, None, None)

  /** The filter object passed to `GET products/categories`. */
  datatype CategoryQuery = CategoryQuery(per_page: Option<int>, hide_empty: Option<bool>)

  /** The paging options the by-category listing accepts. */
  datatype PageOptions = PageOptions(per_page: Option<int>, page: Option<int>)

  /** The catalog service as seen through its authenticated client. */
  datatype CatalogClient = CatalogClient(
    /** `GET products` with a filter object */
    products: ProductQuery -> Outcome<seq<Product>>,
    /** `GET products/{id}` */
    product: int -> Outcome<Product>,
    /** `GET products/categories` with a filter object */
    categories: CategoryQuery -> Outcome<seq<Category>>
  )

  /** The content service as seen through the unauthenticated client. */
  datatype ContentClient = ContentClient(
    /** `GET /headless/v1/featured-products` */
    featured: Outcome<seq<Product>>,
    /** `GET /headless/v1/test` */
    test: Outcome<Json>,
    /** `GET /headless/v1/store-info` */
    storeInfo: Outcome<StoreInfo>,
    /** `GET /wp/v2/testimonial` */
    testimonials: Outcome<seq<Json>>,
    /** `GET /wp/v2/faq` */
    faqs: Outcome<seq<Json>>
  )

  /** A request the featured-products accessor may issue. */
  datatype Request = ContentFeatured | CatalogProducts(query: ProductQuery)
}
