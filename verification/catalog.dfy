/** The catalog accessor (`woocommerce.*`): what each operation asks the
    transport for, and what it makes of the answer.

    Logging on failure is left out; every operation except the slug lookup
    and the featured listing hands the transport's failure back unchanged. */
module Catalog {
  import opened Outcomes
  import opened Model
  import opened Transport
  import opened Sequences

  /** The page size the featured listing uses when the caller gives none. */
  const DefaultFeaturedLimit: int := 8

  /** The page size a search uses when the caller gives none. */
  const DefaultSearchLimit: int := 20

  /** `getProducts(params)`: one `GET products` with the caller's filter,
      relayed as is (order and contents chosen by the server). */
  function GetProducts(api: CatalogClient, params: ProductQuery := NoFilter): (r: Outcome<seq<Product>>)
    ensures Relays(api.products(params), r)
  {
    api.products(params)
  }

  /** `getProduct(id)`: one `GET products/{id}`, relayed as is. */
  function GetProduct(api: CatalogClient, id: int): (r: Outcome<Product>)
    ensures Relays(api.product(id), r)
  {
    api.product(id)
  }

  /** The filter the slug lookup sends: the slug and nothing else. */
  function SlugQuery(slug: string): ProductQuery {
    NoFilter.(slug := Some(slug))
  }

  /** `getProductBySlug(slug)`: an empty answer is "not found" (`None`), a
      non-empty one yields its first record, and only a failed request is a
      failure. */
  function GetProductBySlug(api: CatalogClient, slug: string): (r: Outcome<Option<Product>>)
    ensures var response := api.products(SlugQuery(slug));
      && (r.Err? <==> response.Err?)
      && (response.Err? ==> r.error == response.error)
      && (response.Ok? && |response.value| == 0 ==> r == Ok(None))
      && (response.Ok? && |response.value| > 0 ==> r == Ok(Some(response.value[0])))
  {
    match api.products(SlugQuery(slug))
    case Ok(data) => Ok(if |data| > 0 then Some(data[0]) else None)
    case Err(e) => Err(e)
  }

  /** `getCategories(params)`: one `GET products/categories`, relayed. */
  function GetCategories(api: CatalogClient, params: CategoryQuery := CategoryQuery(None, None)): (r: Outcome<seq<Category>>)
    ensures Relays(api.categories(params), r)
  {
    api.categories(params)
  }

  /** The filter of the featured listing's fallback request. */
  function FeaturedQuery(limit: int): ProductQuery {
    NoFilter.(featured := Some(true), per_page := Some(limit))
  }

  /** `getFeaturedProducts(limit)`: the content endpoint's list cut to
      `slice(0, limit)`; when that request fails, whatever the catalog
      answers for featured products with page size `limit`, uncut. */
  function GetFeaturedProducts(api: CatalogClient, wp: ContentClient, limit: int := DefaultFeaturedLimit): (r: Outcome<seq<Product>>)
    ensures wp.featured.Ok? ==> r.Ok? && IsPrefix(r.value, wp.featured.value)
    ensures wp.featured.Ok? && 0 <= limit ==> |r.value| == Min(limit, |wp.featured.value|)
    ensures wp.featured.Ok? && limit < 0 ==>
              |r.value| == if |wp.featured.value| + limit < 0 then 0 else |wp.featured.value| + limit
    ensures wp.featured.Err? ==> r == GetProducts(api, FeaturedQuery(limit))
    ensures r.Err? <==> wp.featured.Err? && api.products(FeaturedQuery(limit)).Err?
  {
    match wp.featured
    case Ok(data) =>
      SliceFromZeroIsPrefix(data, limit);
      Ok(Slice(data, 0, limit))
    case Err(_) => GetProducts(api, FeaturedQuery(limit))
  }

  /** The requests one featured-listing call issues, in order: the content
      endpoint first, and the catalog fallback only once that has failed. */
  function FeaturedRequests(wp: ContentClient, limit: int := DefaultFeaturedLimit): (rs: seq<Request>)
    ensures 1 <= |rs| <= 2 && rs[0] == ContentFeatured
    ensures |rs| == 2 <==> wp.featured.Err?
    ensures |rs| == 2 ==> rs[1] == CatalogProducts(FeaturedQuery(limit))
  {
    if wp.featured.Err? then [ContentFeatured, CatalogProducts(FeaturedQuery(limit))]
    else [ContentFeatured]
  }

  /** The featured listing depends on the catalog only through the
      requests it lists: two catalog clients that answer those alike give
      the same result.  In particular, after a successful first request
      the catalog is not consulted at all. */
  lemma FeaturedReadsOnlyListedRequests(api: CatalogClient, api': CatalogClient, wp: ContentClient, limit: int)
    requires forall q :: CatalogProducts(q) in FeaturedRequests(wp, limit) ==> api.products(q) == api'.products(q)
    ensures GetFeaturedProducts(api, wp, limit) == GetFeaturedProducts(api', wp, limit)
  {
    if wp.featured.Err? {
      assert CatalogProducts(FeaturedQuery(limit)) in FeaturedRequests(wp, limit);
    }
  }

  /** The filter a search sends: the text and the page size. */
  function SearchQuery(query: string, limit: int): ProductQuery {
    NoFilter.(search := Some(query), per_page := Some(limit))
  }

  /** `searchProducts(query, limit)`: one `GET products` filtered by text
      with page size `limit`, relayed. */
  function SearchProducts(api: CatalogClient, query: string, limit: int := DefaultSearchLimit): (r: Outcome<seq<Product>>)
    ensures Relays(api.products(SearchQuery(query, limit)), r)
  {
    api.products(SearchQuery(query, limit))
  }

  /** The filter the by-category listing sends: the category id, then the
      caller's paging options spread over it. */
  function CategoryPageQuery(categoryId: int, params: PageOptions): ProductQuery {
    NoFilter.(category := Some(categoryId), per_page := params.per_page, page := params.page)
  }

  /** `getProductsByCategory(categoryId, params)`: one `GET products`
      filtered by category, relayed. */
  function GetProductsByCategory(api: CatalogClient, categoryId: int, params: PageOptions := PageOptions(None, None)): (r: Outcome<seq<Product>>)
    ensures Relays(api.products(CategoryPageQuery(categoryId, params)), r)
  {
    api.products(CategoryPageQuery(categoryId, params))
  }

  // ---------------------------------------------------------------------
  // Properties relating the operations
  // ---------------------------------------------------------------------

  /** A search is the general listing with exactly two keys set, the text
      and the page size; the default page size is 20. */
  lemma SearchIsFilteredListing(api: CatalogClient, query: string, limit: int)
    ensures SearchProducts(api, query, limit)
            == GetProducts(api, NoFilter.(search := Some(query), per_page := Some(limit)))
    ensures SearchProducts(api, query)
            == GetProducts(api, NoFilter.(search := Some(query), per_page := Some(20)))
  {
  }

  /** Without an explicit limit the featured listing uses 8, both to cut
      the content endpoint's list and as the fallback's page size. */
  lemma FeaturedDefaultLimitIsEight(api: CatalogClient, wp: ContentClient)
    ensures GetFeaturedProducts(api, wp) == GetFeaturedProducts(api, wp, 8)
    ensures FeaturedRequests(wp) == FeaturedRequests(wp, 8)
  {
  }

  /** The by-category listing is the general listing with the category key
      set, plus whichever paging keys the caller gave. */
  lemma CategoryListingIsFilteredListing(api: CatalogClient, categoryId: int, perPage: Option<int>, page: Option<int>)
    ensures GetProductsByCategory(api, categoryId, PageOptions(perPage, page))
            == GetProducts(api, NoFilter.(category := Some(categoryId), per_page := perPage, page := page))
    ensures GetProductsByCategory(api, categoryId)
            == GetProducts(api, NoFilter.(category := Some(categoryId)))
  {
  }

  /** The slug lookup reports not-found and request failure apart: an
      empty answer is a success carrying `None`, and a record it returns is
      one the server sent, the first of them. */
  lemma SlugLookupSeparatesNotFoundFromFailure(api: CatalogClient, slug: string, p: Product)
    ensures api.products(SlugQuery(slug)) == Ok([]) ==> GetProductBySlug(api, slug) == Ok(None)
    ensures GetProductBySlug(api, slug) == Ok(Some(p)) ==>
              api.products(SlugQuery(slug)).Ok? && p in api.products(SlugQuery(slug)).value
              && p == api.products(SlugQuery(slug)).value[0]
  {
  }

  /** The fallback's list is returned whole, even when the catalog sends
      more than `limit` records; only the content endpoint's list is cut. */
  lemma FallbackIsNotTruncated(api: CatalogClient, wp: ContentClient, limit: int)
    requires wp.featured.Err?
    requires api.products(FeaturedQuery(limit)).Ok?
    ensures GetFeaturedProducts(api, wp, limit) == Ok(api.products(FeaturedQuery(limit)).value)
  {
  }

  /** A primary list with more than `limit` records is cut to exactly the
      first `limit` of them. */
  lemma PrimaryIsTruncated(api: CatalogClient, wp: ContentClient, limit: nat)
    requires wp.featured.Ok? && limit <= |wp.featured.value|
    ensures GetFeaturedProducts(api, wp, limit) == Ok(wp.featured.value[..limit])
  {
  }

  /** The error policy of the catalog accessor, all operations at once:
      the plain operations fail exactly when their request fails and with
      the same failure; the slug lookup fails exactly when its request
      fails; the featured listing fails only when both its requests fail. */
  lemma CatalogErrorPolicy(api: CatalogClient, wp: ContentClient, params: ProductQuery, id: int,
                           catParams: CategoryQuery, slug: string, query: string, categoryId: int,
                           page: PageOptions, limit: int)
    ensures GetProducts(api, params).Err? <==> api.products(params).Err?
    ensures GetProduct(api, id).Err? <==> api.product(id).Err?
    ensures GetCategories(api, catParams).Err? <==> api.categories(catParams).Err?
    ensures SearchProducts(api, query, limit).Err? <==> api.products(SearchQuery(query, limit)).Err?
    ensures GetProductsByCategory(api, categoryId, page).Err?
            <==> api.products(CategoryPageQuery(categoryId, page)).Err?
    ensures GetProductBySlug(api, slug).Err? <==> api.products(SlugQuery(slug)).Err?
    ensures GetFeaturedProducts(api, wp, limit).Err?
            <==> wp.featured.Err? && api.products(FeaturedQuery(limit)).Err?
  {
  }
}
