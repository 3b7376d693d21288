# Shophub storefront core, modelled in Dafny

Shophub is a React storefront. It merges the catalogs of three public product
services into one list. It maps the second and third suppliers' category tags
onto twelve storefront categories through a 43-entry table. The first
supplier's tags, and tags not in the table, are kept as they are. Its pages list, filter, sort, search and display the
products, and its checkout page validates a form.

This project models that core as Dafny values, functions and methods, and
proves properties about them:

- the category normaliser and its 43-entry tag table;
- the catalog merge with its id offsets, and the single-product lookup;
- the category query;
- the checkout page's validation, input handling and submit flow;
- the product listing's filters, sort options and price bounds;
- the search filter;
- the category label formatter;
- the star rating and the product detail page's load and add-to-cart logic;
- the home page's top-rated selection and its category tiles.

Modules follow the source files:

- `Api`, `Categories` and `TagTable` model `services/api.ts`.
- `Checkout` models `pages/CheckoutPage.tsx`.
- `ProductsPage`, `SearchResults`, `CategoryPage`, `ProductDetail` and `HomePage` model the page of the same name.
- `Labels` holds `formatCategoryName`. That function is written identically in two pages, so it is defined once.
- `Sorting` holds the stable comparator sort that two pages apply in place.
- `Text` and `Lists` hold the string and array primitives the code relies on: lower-casing, whitespace, substring search, `filter`.
- `Types` holds the records of `types/index.ts`.

Network requests are parameters. Each listing endpoint is a `Result` value, and each item endpoint is a function from id to `Result`. React state is a value handed in and returned. The checkout page's own state is a class whose methods update its fields.

Javascript's `Array.prototype.sort` is stable. A comparator `(a, b) => k(b) - k(a)` orders by ascending `-k`. So every sort here is specified as a stable insertion sort by ascending `Sorting.Key`. The in-place array method `Sorting.SortInPlace` is proved equal to it.

The object literal `categoryMap` in `normalizeCategory` is modelled as `TagTable.TagCategory`, a `match` on the lowered tag. Its keys are distinct, so a lookup is a match. It has 43 entries. The dispatch of `getProduct` on the parsed id is the function `Api.ProductById`; `Api.GetProduct` is proved equal to it, and the lookup lemmas below are stated about it. The 24 per-category lemmas in `TagTable`, two for each category, together with `TagTable.UnknownIsNotATag` and the twelve `...IsLowerCase` lemmas in `Categories`, are proof steps for the rows below.

## Model

| member | source | states |
|---|---|---|
| Categories.GetCategories | project/src/services/api.ts:181-197 | exactly twelve category names, pairwise distinct |
| Categories.TableIntoCategories | project/src/services/api.ts:7-74 | every value of the tag table is one of the twelve categories |
| Categories.NormalizeCategory | project/src/services/api.ts:6-77 | a tag whose lower-cased form is a key maps to one of the twelve categories; any other tag is returned unchanged, with its case |
| Categories.CanonicalIsFixed | project/src/services/api.ts:181-197 | no category name is itself a key of the table, and each is already lower case |
| Categories.EveryCategoryHasTag | project/src/services/api.ts:7-74 | each of the twelve categories is the image of at least one tag |
| Categories.NormalizeCanonical | project/src/services/api.ts:181-197 | normalising a category name returns it |
| Categories.NormalizeIdempotent | project/src/services/api.ts:6-77 | normalising twice equals normalising once |
| Categories.NormalizeIgnoresCase | project/src/services/api.ts:76 | tags that agree after lower-casing, and are keys, normalise to the same category |
| Categories.NormalizeExamples | project/src/services/api.ts:12 | "LightinG" becomes "electronics"; an unknown tag is kept verbatim |
| Api.FromDummy | project/src/services/api.ts:97-108 | a second-source record maps to id+1000, thumbnail as image, rating and stock as rate and count, normalised category, other fields copied |
| Api.FromPlatzi | project/src/services/api.ts:111-122 | a third-source record maps to id+2000, first image, normalised category name, rate 4.5 and count 100, other fields copied |
| Api.FromDummyAll | project/src/services/api.ts:97 | mapping a second-source listing maps each record in order |
| Api.FromPlatziAll | project/src/services/api.ts:111 | mapping a third-source listing maps each record in order |
| Api.Merged | project/src/services/api.ts:91-122 | the merged catalog is the first listing verbatim, then the second and third mapped, in order |
| Api.GetProducts | project/src/services/api.ts:80-130 | when all three requests succeed, the merged catalog; when any fails, the outcome of the fallback request |
| Api.MergedIdPartition | project/src/services/api.ts:97-122 | when native ids of the first two sources lie in [0, 1000) and those of the third are non-negative, the id of merged entry k is below 1000 for a first-source entry, in [1000, 2000) for a second-source entry, and 2000 or more for a third-source entry |
| Api.MergedIdsUnique | project/src/services/api.ts:97-122 | ids unique within each source stay unique in the merged catalog |
| Api.MergedCategoriesNormalized | project/src/services/api.ts:101-115 | every mapped entry's category is already normalised |
| Api.GetProduct | project/src/services/api.ts:133-178 | the parsed id selects exactly one source by range, with the offset subtracted, and a NaN id goes to the third source; the result is present exactly when that fetch succeeds |
| Api.NaNIdQueriesC | project/src/services/api.ts:138-157 | a NaN id fails both range tests, so the result is the mapped answer of the third source's request for NaN, present exactly when that request succeeds |
| Api.ProductByIdKeepsId | project/src/services/api.ts:138-171 | when the upstream record carries the requested native id, the product returned carries the requested id |
| Api.LookupA | project/src/services/api.ts:138-140 | a first-source product is found under its own id |
| Api.LookupB | project/src/services/api.ts:141-155 | a mapped second-source product is found under its mapped id |
| Api.LookupC | project/src/services/api.ts:156-171 | a mapped third-source product is found under its mapped id |
| Api.CatalogLookupRoundTrip | project/src/services/api.ts:133-178 | every entry of the merged catalog, looked up by its id, returns that same entry |
| Api.GetProductsByCategory | project/src/services/api.ts:200-209 | a failed catalog gives []; otherwise the products whose category matches case-insensitively, as an order-preserving subsequence holding each match as often as the catalog does and nothing else |
| Api.ByCategoryIgnoresCase | project/src/services/api.ts:203-205 | category names differing only in case give the same products |
| Checkout.WithField | project/src/pages/CheckoutPage.tsx:42 | the named field takes the new value and every other field is unchanged |
| Checkout.RequiredErrors | project/src/pages/CheckoutPage.tsx:54-62 | the loop records "This field is required" for exactly the required fields that are empty |
| Checkout.CheckEmail | project/src/pages/CheckoutPage.tsx:65-67 | a non-empty address that fails the pattern gets the invalid-email message, replacing nothing else |
| Checkout.CheckCardNumber | project/src/pages/CheckoutPage.tsx:71-75 | an empty card number is required; one that is not 16 digits once whitespace is removed is invalid |
| Checkout.CheckExpiry | project/src/pages/CheckoutPage.tsx:77-81 | an empty expiry is required; one not of the form DD/DD is invalid |
| Checkout.CheckCvc | project/src/pages/CheckoutPage.tsx:83-87 | an empty CVC is required; one that is not 3 or 4 digits is invalid |
| Checkout.CollectErrors | project/src/pages/CheckoutPage.tsx:50-91 | the error map built is exactly the per-field reference errors |
| Checkout.CardChecksSkipped | project/src/pages/CheckoutPage.tsx:70 | without the credit-card method, the card checks add nothing |
| Checkout.NoErrorsIffValid | project/src/pages/CheckoutPage.tsx:91 | the error map is empty exactly when every required field is filled, the email matches, and the card fields pass with the credit-card method |
| Checkout.WhitespaceIsPresent | project/src/pages/CheckoutPage.tsx:59 | a field holding only a space counts as filled |
| Checkout.NoCardErrorsOtherwise | project/src/pages/CheckoutPage.tsx:70-88 | another payment method never gives a card error |
| Checkout.EmailErrorOverridesPresence | project/src/pages/CheckoutPage.tsx:65-67 | a present but malformed email gets the invalid-email message |
| Checkout.EmailSplits | project/src/pages/CheckoutPage.tsx:65 | an accepted address splits into non-empty space-free pieces around an @ and a later dot |
| Checkout.EmailJoins | project/src/pages/CheckoutPage.tsx:65 | such pieces joined by @ and a dot form an accepted address |
| Checkout.EmailShape | project/src/pages/CheckoutPage.tsx:65 | the email pattern accepts exactly those joined pieces |
| Checkout.GroupedCardNumberAccepted | project/src/pages/CheckoutPage.tsx:73 | four groups of four digits separated by spaces are accepted |
| Checkout.ExpiryIsShapeOnly | project/src/pages/CheckoutPage.tsx:79 | "13/99" is accepted and "1/99" is not: the check is on shape, not on month |
| Checkout.CvcLengths | project/src/pages/CheckoutPage.tsx:85 | three or four digits are accepted; five are not |
| Checkout.CheckoutPage.constructor | project/src/pages/CheckoutPage.tsx:14-27 | the page starts with the initial form, no errors, and neither submitting nor succeeded |
| Checkout.CheckoutPage.HandleInputChange | project/src/pages/CheckoutPage.tsx:40-48 | only the named field changes; its error is blanked only if it had a non-empty one; nothing else changes |
| Checkout.CheckoutPage.Redirects | project/src/pages/CheckoutPage.tsx:34-37 | the page redirects only with an empty cart, and never while the success screen is shown |
| Checkout.CheckoutPage.ValidateForm | project/src/pages/CheckoutPage.tsx:50-92 | stores the expected error map and returns true exactly when the form is valid |
| Checkout.CheckoutPage.HandleSubmit | project/src/pages/CheckoutPage.tsx:94-102 | validates; only a valid form sets submitting |
| Checkout.CheckoutPage.FinishOrder | project/src/pages/CheckoutPage.tsx:104-108 | empties the cart, ends submitting and shows success, after which the page does not redirect |
| ProductsPage.HandlePriceRangeChange | project/src/pages/ProductsPage.tsx:86-92 | only the chosen bound takes the parsed value |
| ProductsPage.ApplyFilters | project/src/pages/ProductsPage.tsx:51-76 | the in-place sort of the filtered copy equals the stable sort of the kept products, or the kept products themselves when the option is not recognised |
| ProductsPage.KeptIff | project/src/pages/ProductsPage.tsx:55-62 | a product is kept exactly when it is in the catalog, matches the category exactly (or 'all' is selected), and min <= price <= max |
| ProductsPage.KeptIsSubsequence | project/src/pages/ProductsPage.tsx:52-62 | the kept products are an order-preserving subsequence of the catalog |
| ProductsPage.KeptMultiplicity | project/src/pages/ProductsPage.tsx:52-62 | each product that passes both filters is kept as often as it occurs in the catalog, and any other product not at all |
| ProductsPage.ListingPermutesKept | project/src/pages/ProductsPage.tsx:64-73 | the listing is a permutation of the kept products, so it holds exactly the products that pass both filters, each as often as in the catalog |
| ProductsPage.ListingOrder | project/src/pages/ProductsPage.tsx:64-73 | a recognised option sorts the listing; '' or any other value keeps the filtered order |
| ProductsPage.SortedMeaning | project/src/pages/ProductsPage.tsx:66-72 | the four orders are ascending price, descending price, descending rate and descending count |
| ProductsPage.AllMeansNoCategoryFilter | project/src/pages/ProductsPage.tsx:55 | selecting 'all' applies only the price filter |
| ProductsPage.InitialListingShowsAll | project/src/pages/ProductsPage.tsx:17-19 | with the initial 'all', '' and 0 to 1000 settings, a catalog priced within 0 to 1000 is listed whole and in catalog order |
| ProductsPage.EmptyRange | project/src/pages/ProductsPage.tsx:60-62 | a minimum above the maximum, or a bound that parsed to NaN, gives an empty listing |
| SearchResults.Search | project/src/pages/SearchResultsPage.tsx:36-49 | an empty query or catalog gives []; otherwise a product is kept exactly when the lowered query occurs in its lowered title, description or category; the result is an order-preserving subsequence |
| SearchResults.SearchMultiplicity | project/src/pages/SearchResultsPage.tsx:39-45 | each matching product appears as often as in the catalog, and others not at all |
| SearchResults.SearchIgnoresCase | project/src/pages/SearchResultsPage.tsx:38 | queries that differ only in letter case give the same results |
| SearchResults.TitleFragmentFinds | project/src/pages/SearchResultsPage.tsx:41 | any non-empty piece of a product's title finds that product |
| Labels.FormatCategoryName | project/src/pages/ProductsPage.tsx:94-99 | the label equals the character-wise reference capitaliser applied from the start of the name |
| Labels.FormatIsCapitalizeWords | project/src/pages/ProductsPage.tsx:94-99 | split, capitalise and join is the character-wise capitaliser: upper-case at the start and after each space |
| Labels.FormatKeepsShape | project/src/pages/CategoryPage.tsx:36-41 | the label has the name's length and exactly its spaces; empty words are kept |
| Labels.FormatCategoryNameAt | project/src/pages/ProductsPage.tsx:94-99 | each character is upper-cased when it starts the name or follows a space, and kept otherwise |
| Labels.FormatIdempotent | project/src/pages/CategoryPage.tsx:36-41 | formatting a label again changes nothing |
| Labels.FormatKeepsLowered | project/src/pages/CategoryPage.tsx:36-41 | a label differs from its name only in letter case |
| CategoryPage.LoadCategory | project/src/pages/CategoryPage.tsx:16-33 | a missing name sets the error message and keeps the product list; otherwise the list is the category query's result for that name, [] for a failed catalog, and the error is cleared |
| CategoryPage.DisplayCategoryName | project/src/pages/CategoryPage.tsx:43 | a missing name shows ''; a present one shows `formatCategoryName` of it, of the same length and equal up to case |
| CategoryPage.ShownProductsMatchHeading | project/src/pages/CategoryPage.tsx:21-43 | every product shown belongs, up to case, to the category in the heading |
| ProductDetail.RenderRatingStars | project/src/pages/ProductDetailPage.tsx:52-66 | five stars; star i is full exactly when i < floor(r), and half exactly when it is not full and i < r |
| ProductDetail.AtMostOneHalf | project/src/pages/ProductDetailPage.tsx:58-62 | a half star sits only at floor(r), only when r is not an integer and r < 5, and there is no other |
| ProductDetail.HalfStarShown | project/src/pages/ProductDetailPage.tsx:58-62 | a non-integer rating strictly between 0 and 5 shows its half star |
| ProductDetail.ExtremeRatings | project/src/pages/ProductDetailPage.tsx:58-62 | r >= 5 gives five full stars; r <= 0 gives five empty ones |
| ProductDetail.StarsAreOrdered | project/src/pages/ProductDetailPage.tsx:58-62 | full stars come first, then at most one half star, then the empty ones |
| ProductDetail.LoadProduct | project/src/pages/ProductDetailPage.tsx:20-38 | a missing id or no product sets the error message and keeps the product; otherwise the product is stored and the error cleared |
| ProductDetail.HandleAddToCart | project/src/pages/ProductDetailPage.tsx:44-50 | with a product, adds it with the selected quantity and navigates to /cart; without one, does nothing |
| ProductDetail.AddOnlyAfterLoad | project/src/pages/ProductDetailPage.tsx:16-50 | from the initial state, the cart gets a product, with quantity 1, exactly when the load found one |
| HomePage.Featured | project/src/pages/HomePage.tsx:21-23 | the featured list has min(8, n) entries |
| HomePage.SelectFeatured | project/src/pages/HomePage.tsx:21-23 | the fetched array is sorted in place by descending rate and its first eight entries are returned |
| HomePage.FeaturedSortedSubset | project/src/pages/HomePage.tsx:21-23 | the featured list is non-increasing in rate and drawn from the catalog |
| HomePage.FeaturedAreTopRated | project/src/pages/HomePage.tsx:21-23 | every product left out rates no higher than the last one featured |
| HomePage.CategoryText | project/src/pages/HomePage.tsx:152 | the caption has no apostrophe, and a name without one is its own caption |
| HomePage.ImageFor | project/src/pages/HomePage.tsx:136-149 | the photo table gives the electronics photo under the key "electronics" and under no other key |
| HomePage.CategoryImageAsWritten | project/src/pages/HomePage.tsx:162 | a tile shows the electronics photo exactly when its caption is "electronics" or not a key |
| HomePage.CategoryImage | project/src/pages/HomePage.tsx:136-162 | looked up by the category name, a tile shows the electronics photo exactly when the name is "electronics" or not a key |
| HomePage.CaptionAroundApostrophe | project/src/pages/HomePage.tsx:152 | the caption of a name with one apostrophe is the two sides joined |
| HomePage.StrippedClothingNamesAreNotKeys | project/src/pages/HomePage.tsx:136-152 | the clothing captions "womens clothing" and "mens clothing" are not keys |
| HomePage.UnkeyedCaptionFallsBack | project/src/pages/HomePage.tsx:162 | a caption that is not a key gets the electronics photo |
| HomePage.WomensTileShowsElectronics | project/src/pages/HomePage.tsx:136-162 | the women's clothing tile, as written, shows the electronics photo |
| HomePage.MensTileShowsElectronics | project/src/pages/HomePage.tsx:136-162 | the men's clothing tile, as written, shows the electronics photo |
| HomePage.ClothingCategoriesHaveOwnPhotos | project/src/pages/HomePage.tsx:141-142 | both clothing categories have their own photos under their real names |
| HomePage.EveryCategoryHasImage | project/src/pages/HomePage.tsx:136-149 | looked up by its own name, every listed category is a key, and only electronics gets the electronics photo |
| HomePage.LookupsAgreeWithoutApostrophe | project/src/pages/HomePage.tsx:152-162 | for names without an apostrophe, the lookup as written and the corrected one agree |
| Sorting.InsertionSortCorrect | project/src/pages/ProductsPage.tsx:65-73 | the reference sort returns a sorted permutation of its input |
| Sorting.SortInPlace | project/src/pages/ProductsPage.tsx:66-72 | sorting the array in place leaves exactly the reference sort of its old contents |
| Text.LowerStrIdempotent | project/src/pages/SearchResultsPage.tsx:38 | lower-casing twice equals lower-casing once |
| Text.RemoveSpacesKeepsSpaceFree | project/src/pages/CheckoutPage.tsx:73 | removing whitespace leaves no whitespace, and keeps a whitespace-free string as it is |
| Text.RemoveChar | project/src/pages/HomePage.tsx:152 | deleting a character removes every copy of it, keeps every other character's count, and leaves a string without it unchanged |

## Left out

- Network requests and JSON decoding are not modelled. The three listings and the item fetches are inputs, and so is the fallback request's outcome. `Promise.all`, `fetch` and response parsing are left out.
- Loading flags and spinners are modelled only in their final state after a load, not in the intermediate states. `console.error`, JSX, styling, routing and the breadcrumb items are left out.
- Object literals are modelled as exact-key lookups. Javascript also resolves inherited prototype keys such as "constructor"; the model does not.
- Case conversion covers ASCII letters only. Javascript's `toLowerCase` and `toUpperCase` also map other Unicode letters.
- Prices and ratings are `real`. Floating-point rounding and NaN prices are left out. Card and form strings are sequences of characters.
- `parseInt` is not modelled. The price handlers and Api.GetProduct receive its result, a number or NaN (`Types.ParsedInt`), as a parameter. The product detail page receives the fetched product itself, so the route id's parse is seen only in Api.GetProduct.
- Api.FirstImage: an empty `images` array gives `undefined` in Javascript, and the model gives the empty string.
- The sort comparators are assumed consistent. A NaN key, which would make the order engine-dependent, is left out.
- The cart context is not modelled. `addToCart` becomes the effect it receives, and `clearCart` becomes a cart length set to 0 (Checkout.CheckoutPage.FinishOrder).
- The 1.5-second delay before the order completes is not modelled. FinishOrder is the callback, run with no timer.
- The hero images and the reading of URL query parameters are left out. An absent `q` parameter is the empty query.
- The photo addresses are modelled as their photo number and file name (`HomePage.Photo`). All of them share one format, so the lemmas compare photos, not address strings.
- The home page's categories request is not modelled. Its tiles are drawn from `Categories.GetCategories`. In the page, that request runs only after `getProducts` succeeds, in the same `try`, so a failed catalog load leaves the category list empty and shows no tiles; the model does not capture this ordering.

## Findings

| source | as written | input that shows it | evidently intended | confidence | as-written member | corrected member |
|---|---|---|---|---|---|---|
| project/src/pages/HomePage.tsx:136-162 | the tile image is looked up by the caption, which has its apostrophes deleted, while the keys keep theirs | the category "women's clothing" (also "men's clothing") | each category shows the photo listed under its own name | not executed | HomePage.WomensTileShowsElectronics | HomePage.EveryCategoryHasImage |

