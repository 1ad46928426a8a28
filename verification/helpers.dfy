/** The display helpers (`helpers.*`) other than `stripHtml`, which is in
    `Markup`: sale flag, main image, page paths and stock status. */
module Helpers {
  import opened Outcomes
  import opened Model

  /** The image path shown for a product that has no images. */
  const PlaceholderImage: string := "/placeholder-product.jpg"

  /** Path prefixes of product and category pages. */
  const ProductPathPrefix: string := "/products/"
  const CategoryPathPrefix: string := "/categories/"

  /** The stock-status sentinels of the catalog service. */
  const InStockStatus: string := "instock"
  const OutOfStockStatus: string := "outofstock"
  const OnBackorderStatus: string := "onbackorder"

  /** The display texts of the stock statuses. */
  const InStockText: string := "In Stock"
  const OutOfStockText: string := "Out of Stock"
  const OnBackorderText: string := "On Backorder"
  const UnknownStockText: string := "Unknown"

  // ---------------------------------------------------------------------
  // Sale flag
  // ---------------------------------------------------------------------

  /** `isOnSale(product)`: the sale flag is set and a sale price is given.
      The price itself is not parsed or compared with the regular price. */
  function IsOnSale(p: Product): (r: bool)
    ensures r <==> p.on_sale && p.sale_price != ""
  {
    p.on_sale && p.sale_price != ""
  }

  /** The sale flag is no validation of the price: any non-empty sale
      price, numeric or not, passes as long as the flag is set. */
  lemma SaleFlagDoesNotParsePrice(p: Product)
    requires p.on_sale && p.sale_price == "n/a"
    ensures IsOnSale(p)
  {
  }

  // ---------------------------------------------------------------------
  // Main image
  // ---------------------------------------------------------------------

  /** `getMainImage(product)`: the first image's source, or the placeholder
      path when there are no images. */
  function GetMainImage(p: Product): (src: string)
    ensures |p.images| == 0 ==> src == PlaceholderImage
    ensures |p.images| > 0 ==> src == p.images[0].src
  {
    if |p.images| > 0 then p.images[0].src else PlaceholderImage
  }

  /** The placeholder marks an image-less product exactly, provided the
      first image is not itself stored under the placeholder path. */
  lemma PlaceholderIffNoImages(p: Product)
    requires |p.images| == 0 || p.images[0].src != PlaceholderImage
    ensures GetMainImage(p) == PlaceholderImage <==> |p.images| == 0
  {
  }

  /** Without that proviso the equivalence fails: a product whose first
      image is stored under the placeholder path looks image-less. */
  lemma PlaceholderSourceLooksImageless(p: Product)
    requires |p.images| > 0 && p.images[0].src == PlaceholderImage
    ensures GetMainImage(p) == GetMainImage(p.(images := []))
  {
  }

  // ---------------------------------------------------------------------
  // Page paths
  // ---------------------------------------------------------------------

  /** `getProductUrl(product)`: the product page path. */
  function GetProductUrl(p: Product): (url: string)
    ensures |url| == |ProductPathPrefix| + |p.slug|
    ensures url[..|ProductPathPrefix|] == ProductPathPrefix
    ensures url[|ProductPathPrefix|..] == p.slug
  {
    ProductPathPrefix + p.slug
  }

  /** `getCategoryUrl(category)`: the category page path. */
  function GetCategoryUrl(c: Category): (url: string)
    ensures |url| == |CategoryPathPrefix| + |c.slug|
    ensures url[..|CategoryPathPrefix|] == CategoryPathPrefix
    ensures url[|CategoryPathPrefix|..] == c.slug
  {
    CategoryPathPrefix + c.slug
  }

  /** Reads the slug back out of a page path with the given prefix, or
      `None` when the path does not start with it. */
  function SlugOfPath(prefix: string, path: string): (slug: Option<string>)
    ensures slug.Some? <==> |prefix| <= |path| && path[..|prefix|] == prefix
    ensures slug.Some? ==> path == prefix + slug.value
  {
    if |prefix| <= |path| && path[..|prefix|] == prefix then
      assert path == prefix + path[|prefix|..];
      Some(path[|prefix|..])
    else None
  }

  /** Page paths lose nothing: the slug is read back from the path, and a
      product path is never read as a category path or the reverse. */
  lemma PageUrlRoundTrip(p: Product, c: Category)
    ensures SlugOfPath(ProductPathPrefix, GetProductUrl(p)) == Some(p.slug)
    ensures SlugOfPath(CategoryPathPrefix, GetCategoryUrl(c)) == Some(c.slug)
    ensures SlugOfPath(CategoryPathPrefix, GetProductUrl(p)) == None
    ensures SlugOfPath(ProductPathPrefix, GetCategoryUrl(c)) == None
  {
    var pu, cu := GetProductUrl(p), GetCategoryUrl(c);
    assert pu[1] == 'p';
    assert cu[1] == 'c';
    if |CategoryPathPrefix| <= |pu| {
      assert pu[..|CategoryPathPrefix|][1] == 'p';
    }
    if |ProductPathPrefix| <= |cu| {
      assert cu[..|ProductPathPrefix|][1] == 'c';
    }
  }

  /** Two products share a page path exactly when they share a slug, and
      no product page has the path of a category page. */
  lemma PageUrlsIdentifySlugs(p: Product, q: Product, c: Category)
    ensures GetProductUrl(p) == GetProductUrl(q) <==> p.slug == q.slug
    ensures GetProductUrl(p) != GetCategoryUrl(c)
  {
    PageUrlRoundTrip(p, c);
    PageUrlRoundTrip(q, c);
  }

  // ---------------------------------------------------------------------
  // Stock status
  // ---------------------------------------------------------------------

  /** The three sentinels the display text distinguishes. */
  predicate IsKnownStatus(status: string) {
    status == InStockStatus || status == OutOfStockStatus || status == OnBackorderStatus
  }

  /** `isInStock(product)`. */
  function IsInStock(p: Product): (r: bool)
    ensures r <==> p.stock_status == InStockStatus
  {
    p.stock_status == InStockStatus
  }

  /** `getStockStatusText(product)`: the display text of the status; every
      value other than the three sentinels reads "Unknown". */
  function GetStockStatusText(p: Product): (text: string)
    ensures text in {InStockText, OutOfStockText, OnBackorderText, UnknownStockText}
    ensures text == UnknownStockText <==> !IsKnownStatus(p.stock_status)
  {
    match p.stock_status
    case "instock" => InStockText
    case "outofstock" => OutOfStockText
    case "onbackorder" => OnBackorderText
    case _ => UnknownStockText
  }

  /** The sentinel a display text stands for; "Unknown" and any other text
      stand for none. */
  function StatusOfText(text: string): (status: Option<string>)
    ensures status.Some? ==> IsKnownStatus(status.value)
  {
    if text == InStockText then Some(InStockStatus)
    else if text == OutOfStockText then Some(OutOfStockStatus)
    else if text == OnBackorderText then Some(OnBackorderStatus)
    else None
  }

  /** The display text loses nothing about a known status, and says
      nothing about an unknown one. */
  lemma StockTextRoundTrip(p: Product)
    ensures IsKnownStatus(p.stock_status) ==> StatusOfText(GetStockStatusText(p)) == Some(p.stock_status)
    ensures !IsKnownStatus(p.stock_status) ==> StatusOfText(GetStockStatusText(p)) == None
  {
  }

  /** The two stock helpers agree: a product is in stock exactly when its
      text reads "In Stock". */
  lemma InStockAgreesWithText(p: Product)
    ensures IsInStock(p) <==> GetStockStatusText(p) == InStockText
  {
  }
}
