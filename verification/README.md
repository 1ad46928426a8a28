# WooCommerce client layer, modelled in Dafny

This project models `lib/woocommerce.ts`, the client layer of a headless
WooCommerce storefront. It has three parts.

- **Catalog accessor** (`woocommerce.*`). It lists, fetches and searches
  products and categories through the authenticated `wc/v3` REST client.
- **Content accessor** (`wordpress.*`). It fetches the connection test,
  the store info, testimonials and FAQs through the `/wp-json` client.
- **Display helpers** (`helpers.*`). They cover the sale flag, the main
  image, page paths, stock status and HTML stripping.

The network cannot be modelled. Each transport client is a record of what
its endpoints answer (`Transport.CatalogClient`, `Transport.ContentClient`).
Each answer is an `Outcome`: `Ok(body)` or `Err(failure)`. Every accessor is
then a pure function of those answers. The model proves the accessors'
error policy:

- Plain operations relay the answer unchanged.
- The slug lookup turns an empty answer into `None`.
- The featured listing falls back to the catalog when the content endpoint
  fails.
- Testimonials and FAQs turn a failure into an empty list.

`stripHtml` (`html.replace(/<[^>]*>/g, '')`) has two definitions:

- `Markup.StripHtml` goes character by character.
- `Markup.ReplaceAll` finds the leftmost match and continues after it, the
  way a global regex replace runs.

They are proved equal. `StripHtml` is proved to leave no tag behind, to be
idempotent, never to lengthen its input, and to keep any text without `<`
or without `>` unchanged.

Files and modules:

| file | module | contents |
|---|---|---|
| outcomes.dfy | `Outcomes` | `Option`, `Outcome`, `Failure`, the `Relays` predicate |
| model.dfy | `Model` | `Product`, `ProductImage`, `Category`, `StoreInfo`, `Json` |
| sequences.dfy | `Sequences` | `Array.prototype.slice` with ECMAScript bound handling |
| transport.dfy | `Transport` | query records, the two client records, `Request` |
| catalog.dfy | `Catalog` | `woocommerce.*` except `createOrder` |
| content.dfy | `Content` | `wordpress.*` |
| markup.dfy | `Markup` | `stripHtml` |
| helpers.dfy | `Helpers` | the other helpers, except `formatPrice` and `getSalePercentage` |

Two behaviours of the code are easy to overlook, and the model keeps both:

- `getMainImage` also returns the placeholder path when the first image's
  `src` is that path. `Helpers.PlaceholderIffNoImages` proves "placeholder
  exactly when there are no images" under the proviso that the first image
  is not stored there. `Helpers.PlaceholderSourceLooksImageless` shows the
  case without it.
- `slice(0, limit)` with a negative `limit` drops the last `-limit` records
  rather than keeping the first ones. `Sequences.Slice` models the
  ECMAScript rule for slice bounds.

## Model

| member | source | states |
|---|---|---|
| Catalog.GetProducts | lib/woocommerce.ts:109-126 | relays the answer to `GET products` with the caller's filter: the server's list in the server's order on success, the same failure otherwise |
| Catalog.GetProduct | lib/woocommerce.ts:129-137 | relays the answer to `GET products/{id}`: the record on success, the same failure otherwise |
| Catalog.GetProductBySlug | lib/woocommerce.ts:140-148 | fails exactly when the request fails, with the same failure; an empty answer gives `Ok(None)`, a non-empty one `Ok(Some(first record))` |
| Catalog.SlugLookupSeparatesNotFoundFromFailure | lib/woocommerce.ts:140-148 | no match is a success carrying `None`, not a failure; a product the lookup returns is the first record the server sent |
| Catalog.GetCategories | lib/woocommerce.ts:151-162 | relays the answer to `GET products/categories` with the caller's filter |
| Catalog.GetFeaturedProducts | lib/woocommerce.ts:165-174 | on primary success: a prefix of the content endpoint's list, `min(limit, length)` long for `limit >= 0` and all but the last `-limit` records (none when there are fewer) for `limit < 0`; on primary failure: exactly the catalog listing filtered by `featured` with page size `limit`; fails only when both requests fail |
| Catalog.FeaturedRequests | lib/woocommerce.ts:165-174 | the content endpoint is asked first; the catalog fallback is a second request issued exactly when the first failed |
| Catalog.FeaturedReadsOnlyListedRequests | lib/woocommerce.ts:165-174 | the featured listing depends on the catalog only through the requests `FeaturedRequests` lists: catalogs that answer those alike give the same result, so after a successful first request the catalog is never consulted |
| Catalog.FeaturedDefaultLimitIsEight | lib/woocommerce.ts:165 | without an explicit limit, the featured listing behaves as with limit 8, for the cut and for the fallback's page size |
| Catalog.FallbackIsNotTruncated | lib/woocommerce.ts:169-173 | the fallback's list is returned whole, whatever its length |
| Catalog.PrimaryIsTruncated | lib/woocommerce.ts:166-168 | a content list longer than `limit` is cut to its first `limit` records |
| Catalog.SearchProducts | lib/woocommerce.ts:177-188 | relays the answer to `GET products` filtered by the search text with page size `limit` |
| Catalog.SearchIsFilteredListing | lib/woocommerce.ts:177-188 | a search equals the general listing with just `search` and `per_page` set; the default page size is 20 |
| Catalog.GetProductsByCategory | lib/woocommerce.ts:191-205 | relays the answer to `GET products` filtered by the category id and the caller's paging options |
| Catalog.CategoryListingIsFilteredListing | lib/woocommerce.ts:191-205 | the by-category listing equals the general listing with `category` and the given paging keys set |
| Catalog.CatalogErrorPolicy | lib/woocommerce.ts:107-205 | each catalog operation fails exactly when its request fails; the featured listing fails exactly when both of its requests fail |
| Sequences.Slice | lib/woocommerce.ts:168 | `slice(start, end)`: never longer than the input; the elements between the clamped bounds, or nothing when the end comes first |
| Sequences.SliceFromZeroIsPrefix | lib/woocommerce.ts:168 | `slice(0, limit)` is a prefix: `min(limit, length)` long for a non-negative limit, everything but the last `-limit` for a negative one |
| Content.Degrade | lib/woocommerce.ts:258-261 | never fails; keeps a delivered list and turns a failure into the empty list |
| Content.TestConnection | lib/woocommerce.ts:232-240 | relays the diagnostic endpoint's answer, failure included |
| Content.GetStoreInfo | lib/woocommerce.ts:243-251 | relays the store snapshot, failure included |
| Content.GetTestimonials | lib/woocommerce.ts:254-262 | never fails; the delivered records unchanged, or the empty list when the request failed |
| Content.GetFAQs | lib/woocommerce.ts:265-273 | never fails; the delivered records unchanged, or the empty list when the request failed |
| Content.CriticalFailsDecorativeDegrades | lib/woocommerce.ts:232-273 | a failed connection test or store snapshot reaches the caller as that failure; a failed testimonial or FAQ request reaches it as an empty success |
| Content.DegradedFailureLooksEmpty | lib/woocommerce.ts:254-273 | a failed testimonial or FAQ request cannot be told apart from an empty one |
| Markup.StripHtml | lib/woocommerce.ts:311-313 | the result is never longer than the input, uses only its characters, contains no `<` followed later by `>`, and equals the input when it has no `<` |
| Markup.LeftmostTag | lib/woocommerce.ts:312 | the leftmost match of `<[^>]*>`: a `<` with no `<` before it, ending at the first `>` after it; there is none exactly when the text is tag free |
| Markup.ReplaceAll | lib/woocommerce.ts:312 | keeps the text before the leftmost match, then continues after it; the result is never longer than the input, has no match left, and equals a tag-free input |
| Markup.TagFreeAfterAngleFreeText | lib/woocommerce.ts:312 | text without `<` followed by tag-free text is tag free, so text kept before a match cannot form a tag with what follows |
| Markup.StripHtmlIsReplaceAll | lib/woocommerce.ts:311-313 | the character-by-character strip equals the global leftmost-match replace on every text |
| Markup.TagFreeUnchanged | lib/woocommerce.ts:311-313 | a text with no match is returned unchanged |
| Markup.NoClosingBracketUnchanged | lib/woocommerce.ts:311-313 | a text without `>` is returned unchanged, whatever `<` it holds |
| Markup.StripHtmlIdempotent | lib/woocommerce.ts:311-313 | stripping the stripped text changes nothing |
| Markup.KeepsHead | lib/woocommerce.ts:312 | a first character other than `<` is kept |
| Markup.DropsHeadTag | lib/woocommerce.ts:312 | a leading `<` with a later `>` is deleted through the first `>` |
| Markup.KeepsTextBeforeFirstAngle | lib/woocommerce.ts:312 | the text before the first `<` is kept verbatim |
| Markup.DropsTagAtHead | lib/woocommerce.ts:312 | a tag at the start is deleted whole and the rest stripped |
| Markup.DropsLeftmostTag | lib/woocommerce.ts:312 | the leftmost tag is deleted, the text before it kept, the text after it stripped |
| Markup.ElementExample | lib/woocommerce.ts:311-313 | `<p>Hi</p>` becomes `Hi` |
| Markup.ProseExample | lib/woocommerce.ts:311-313 | `1 < 2 > 0` becomes `1  0`: comparison signs are read as a tag |
| Markup.NestedAngleExample | lib/woocommerce.ts:311-313 | `<<b>>` becomes `>`: an inner `<` does not start its own tag |
| Helpers.IsOnSale | lib/woocommerce.ts:290-292 | holds exactly when the sale flag is set and the sale price is non-empty |
| Helpers.SaleFlagDoesNotParsePrice | lib/woocommerce.ts:290-292 | example: with the flag set, the non-numeric sale price `"n/a"` passes, since the price is never parsed |
| Helpers.GetMainImage | lib/woocommerce.ts:304-308 | the placeholder path for an image-less product, otherwise the first image's source |
| Helpers.PlaceholderIffNoImages | lib/woocommerce.ts:304-308 | if the first image is not stored under the placeholder path, the placeholder appears exactly when there are no images |
| Helpers.PlaceholderSourceLooksImageless | lib/woocommerce.ts:304-308 | a first image stored under the placeholder path gives the same result as no images |
| Helpers.GetProductUrl | lib/woocommerce.ts:316-318 | the path is `/products/` followed by the product's slug |
| Helpers.GetCategoryUrl | lib/woocommerce.ts:321-323 | the path is `/categories/` followed by the category's slug |
| Helpers.SlugOfPath | lib/woocommerce.ts:316-323 | reads a slug back from a path with a given prefix; fails exactly when the path lacks the prefix |
| Helpers.PageUrlRoundTrip | lib/woocommerce.ts:316-323 | the slug is read back from its page path, and a product path never reads as a category path or the reverse |
| Helpers.PageUrlsIdentifySlugs | lib/woocommerce.ts:316-323 | two products share a path exactly when they share a slug; no product path equals a category path |
| Helpers.IsInStock | lib/woocommerce.ts:326-328 | holds exactly when the status is the `instock` sentinel |
| Helpers.GetStockStatusText | lib/woocommerce.ts:331-342 | one of exactly four texts; `Unknown` exactly when the status is none of the three sentinels |
| Helpers.StatusOfText | lib/woocommerce.ts:331-342 | the inverse reading of a display text; it only yields one of the three sentinels |
| Helpers.StockTextRoundTrip | lib/woocommerce.ts:331-342 | a known status is recovered from its text; an unknown one yields no status |
| Helpers.InStockAgreesWithText | lib/woocommerce.ts:326-342 | a product is in stock exactly when its text reads `In Stock` |

## Left out

- Client construction and environment defaults (`WooCommerceRestApi`, `axios.create`, base URL, credentials) are left out. They are transport configuration. The clients' answers are parameters instead.
- Logging on failure (`console.error`) is left out. It has no effect on results.
- Promise sequencing is left out. The featured fallback is modelled as a choice made after the first answer is known.
- `formatPrice` is left out. It rests on `parseFloat`, `NaN` and `Intl.NumberFormat` locale formatting.
- `getSalePercentage` is left out. It rests on floating-point division, `parseFloat` and `Math.round`.
- `createOrder` is left out. It is a bare POST whose only behaviour is a remote side effect.
- `CartItem` is left out. No modelled operation builds or reads it.
- The `Product` and `Category` fields that no helper reads are left out. These include prices other than the sale price, attributes, gallery and extension fields.
- Each endpoint's answer is taken as already typed. The source casts `response.data` without checking it, so ill-shaped bodies are not modelled.
- Helpers.GetMainImage: does not model the `product.images &&` guard for a payload that lacks the field entirely, because the typed `Product` always has an image sequence; such a payload behaves like an empty one.
- Catalog.GetFeaturedProducts: models integral limits only; a fractional `limit` (truncated by `slice`, sent as is to the server) is not modelled, because `int` has no fractions.
- JSON numbers in the untyped payloads (connection test, testimonials, FAQs) are modelled as integers (`Json.JNumber`), not as the fractional numbers JSON allows; the payloads are only relayed, so nothing depends on their numbers.
- Catalog.GetProducts: an absent `params` argument is modelled as the empty filter `NoFilter`; the two send the same request.
