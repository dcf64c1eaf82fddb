# LearnHub storefront core, modelled in Dafny

LearnHub is a client-side course storefront. Under its React pages sit small,
sequential rules, and this project states and proves them:

- **Course provider.** The course repository; the saved and purchased id lists;
  the derived views (featured, popular, newest, saved, purchased); and the
  search-and-filter pipeline.
- **Cart provider.** An ordered list of courses with no duplicate ids, with
  add, remove, clear, membership and total.
- **Courses page.** The six filter fields, their decoding from URL query
  parameters and re-encoding, the mapping to the search arguments,
  "clear filters" and "clear price", and the duplicate-free category and
  level lists.
- **Cart page.** The cart items that are not yet purchased, their subtotal at
  the effective price, the `save20` coupon, and the checkout destination.
- **Checkout page.** The card-number formatter, the card-number and CVV input
  guards, the form update, the subtotal with its 5% tax, and the submit
  transition, which purchases the cart and empties it.
- **Course player.** The completed-lesson list; the (section, lesson) cursor
  with Next, Next Section and Previous; and the progress ratio.
- **Course detail page.** The lesson and preview counts, the Add to Cart, Buy
  Now and Save handlers, and the main button's label.
- **Register page.** The five password-strength criteria, the score with its
  text and colour, and the order of the checks on submit.
- **Auth provider.** The mock state machine: `checkAuth`, `login` with its one
  demo account, `register` and `logout`, over a key-value store.

One Dafny module models each source file:

| source file | module |
|---|---|
| `src/contexts/CourseContext.tsx` | `CourseCatalog` |
| `src/contexts/CartContext.tsx` | `CartLedger` |
| `src/contexts/AuthContext.tsx` | `Auth` |
| `src/pages/CoursesPage.tsx` | `CoursesPage` |
| `src/pages/CartPage.tsx` | `CartPage` |
| `src/pages/CheckoutPage.tsx` | `Checkout` |
| `src/pages/CoursePlayerPage.tsx` | `CoursePlayer` |
| `src/pages/CourseDetailPage.tsx` | `CourseDetail` |
| `src/pages/RegisterPage.tsx` | `RegisterPage` |

Shared modules support them:

- `CourseTypes`: the `Course` record of `src/types/course.ts`.
- `Curriculum`: lesson counts over sections.
- `Seqs`: order-preserving filter and subsequences.
- `IdLists`: toggled and append-new id lists.
- `Ranking`: a stable descending sort and its top-n prefix.
- `Text`: ASCII character classes, lower-casing and substrings.
- `Numerals`: decimal numerals, as `Number()` parses them and `toString()`
  prints them.
- `Navigation`: a recorded `navigate` target.
- `Wrappers`: `Option`.

The code's own state is modelled where the code keeps it:

- Provider and page state that handlers replace becomes a `class` whose
  methods reassign its fields: `CourseStore`, `Cart`, `FilterPanel`,
  `CouponForm`, `CheckoutForm`, `Player`, `RegisterForm`, `AuthState`.
- The `forEach` loop of `purchaseCourses` and the chain of filter steps in
  `searchCourses` are methods with loops and step-by-step proofs.
- Expressions (derived views, reduce, filter, thresholds) are functions.

Prices, ratings and filter bounds are `real`, with no rounding. Timestamps are
integers. Lower-casing is ASCII lower-casing.

A few behaviours of the code differ from what one might expect. The model
follows the code in each case:

- The cart provider's `totalPrice` sums the list `price`; it ignores
  `discountPrice` (`src/contexts/CartContext.tsx:62`). The cart page and the
  checkout use the effective price (`discountPrice || price`).
- The checkout subtotal sums every cart item, purchased ones included, and
  ignores any coupon the cart page applied (`src/pages/CheckoutPage.tsx:89-95`).
- Next Section does not check that the following section has a lesson.
- The coupon discount is stored when applied and is not recomputed, so a later,
  smaller subtotal can make the cart total negative.
- The Buy Now handler does not check whether the course is already purchased;
  the page shows the Buy Now button only for courses that are not.
- Progress can exceed 100 when the completed list repeats an id.

## Model

| member | source | states |
|---|---|---|
| CourseTypes.EffectivePrice | src/pages/CartPage.tsx:23-26 | the price charged is the list price or the discount price; it is non-negative when the prices are, and never above the list price when the discount price is not |
| CourseCatalog.SearchResult | src/contexts/CourseContext.tsx:118-152 | a course is in the result iff it is in the repository and passes the text criterion and every active filter; each passing course occurs as often as in the repository, and the result is a subsequence of the repository (never reordered) |
| CourseCatalog.CourseStore.SearchCourses | src/contexts/CourseContext.tsx:108-155 | the step-by-step narrowing of `filtered` (query, category, level, min price, max price, rating) ends with exactly `SearchResult` |
| CourseCatalog.NarrowStep | src/contexts/CourseContext.tsx:132-152 | applying one filter step when its guard is truthy (and skipping it otherwise) yields the courses passing all the criteria so far, in order |
| CourseCatalog.SearchAllOnEmptyQuery | src/contexts/CourseContext.tsx:118-154 | an empty query with no filters returns every course in repository order |
| CourseCatalog.SearchFalsyFiltersIgnored | src/contexts/CourseContext.tsx:133-139 | an empty category, an empty level and a rating of 0 filter nothing; the result equals searching with only the price bounds |
| CourseCatalog.SearchInvertedPriceRangeIsEmpty | src/contexts/CourseContext.tsx:141-147 | a minimum price above the maximum price gives an empty result |
| CourseCatalog.SearchPriceBoundsUseListPrice | src/contexts/CourseContext.tsx:141-147 | the bounds are inclusive and compare the list price: a course priced exactly `p` passes `[p, p]`, even when its discount price is lower |
| CourseCatalog.SearchMinPriceAboveAll | src/contexts/CourseContext.tsx:141-143 | a minimum price above every list price gives an empty result |
| CourseCatalog.SearchCaseInsensitive | src/contexts/CourseContext.tsx:121-129 | searching with the lower-cased query gives the same result as the query itself |
| CourseCatalog.PopularAndNewestShape | src/contexts/CourseContext.tsx:65-66 | popular and newest views hold min(8, \|courses\|) courses, sorted by enrollments (creation time) highest first, drawn from the repository, with courses of equal key in repository order |
| CourseCatalog.FindById | src/contexts/CourseContext.tsx:85-87 | `None` iff no course has the id; otherwise the first course in repository order with that id |
| CourseCatalog.CourseStore.FeaturedCourses | src/contexts/CourseContext.tsx:64 | exactly the featured courses, in repository order |
| CourseCatalog.CourseStore.SavedCourses | src/contexts/CourseContext.tsx:67 | exactly the courses whose id is saved, in repository order |
| CourseCatalog.CourseStore.PurchasedCourses | src/contexts/CourseContext.tsx:68 | exactly the courses whose id is purchased, in repository order |
| CourseCatalog.CourseStore.ToggleSave | src/contexts/CourseContext.tsx:71-77 | the saved list becomes `Toggled` of the old one, so the id's saved state flips; the purchased list is unchanged |
| CourseCatalog.CourseStore.PurchaseCourses | src/contexts/CourseContext.tsx:90-100 | the loop leaves the purchased list equal to `AppendNew(old list, ids)`, and every given id is purchased |
| CourseCatalog.CourseStore.constructor | src/contexts/CourseContext.tsx:37-39 | a new store holds the given courses with empty saved and purchased lists |
| IdLists.ToggledMembership | src/contexts/CourseContext.tsx:71-77 | after a toggle the id is present iff it was absent; every other id keeps its membership |
| IdLists.ToggledShape | src/contexts/CourseContext.tsx:72-76 | an absent id is appended at the end; a present id is removed everywhere, and every other id keeps its number of occurrences and its order |
| IdLists.ToggleTwice | src/pages/CoursePlayerPage.tsx:85-91 | toggling twice restores membership, and restores the list itself when the id was absent |
| IdLists.FilterAppendLast | src/contexts/CourseContext.tsx:73 | removing an id that was just appended gives back the original list |
| IdLists.ToggledDistinct | src/pages/CoursePlayerPage.tsx:85-91 | a duplicate-free list stays duplicate-free under a toggle |
| IdLists.AppendNewKeepsPrefix | src/contexts/CourseContext.tsx:91 | the old purchased list is an unchanged prefix of the new one |
| IdLists.AppendNewMembership | src/contexts/CourseContext.tsx:93-97 | an id is in the union iff it was in the old list or among the given ids |
| IdLists.AppendNewDistinct | src/contexts/CourseContext.tsx:94-96 | no duplicates are introduced |
| IdLists.AppendNewAbsorbs | src/contexts/CourseContext.tsx:94 | when every given id is already present, nothing changes |
| IdLists.AppendNewIdempotent | src/contexts/CourseContext.tsx:90-100 | purchasing the same ids twice gives the same list as once |
| IdLists.AppendNewSuffixInOrder | src/contexts/CourseContext.tsx:93-97 | the appended part is a subsequence of the given ids |
| IdLists.FirstIndex | src/contexts/CourseContext.tsx:93-97 | the position of the first occurrence of an id |
| IdLists.AppendNewFirstOccurrence | src/contexts/CourseContext.tsx:93-97 | each appended id was new and comes from the given ids, and the appended ids follow the order of their first occurrence there |
| Ranking.Insert | src/contexts/CourseContext.tsx:65-66 | inserting adds exactly one element and nothing else |
| Ranking.SortDesc | src/contexts/CourseContext.tsx:65-66 | the sort keeps the length |
| Ranking.InsertPermutation | src/contexts/CourseContext.tsx:65-66 | insertion adds the element to the multiset |
| Ranking.InsertSorted | src/contexts/CourseContext.tsx:65-66 | insertion into a descending list keeps it descending |
| Ranking.InsertKeyClass | src/contexts/CourseContext.tsx:65-66 | insertion places the element in front of the elements of equal key; since the sort inserts earlier elements last, this keeps equal keys in repository order (stability) |
| Ranking.SortDescPermutation | src/contexts/CourseContext.tsx:65-66 | `[...courses].sort(...)` is a permutation of the courses |
| Ranking.SortDescSorted | src/contexts/CourseContext.tsx:65-66 | the sorted copy has non-increasing keys |
| Ranking.SortDescStable | src/contexts/CourseContext.tsx:65-66 | courses of equal key keep their repository order |
| Ranking.KeyClassMembership | src/contexts/CourseContext.tsx:65-66 | an element is in the class of key `k` iff it is in the list with key `k` |
| Ranking.NoKeyClassesMeansEmpty | src/contexts/CourseContext.tsx:65-66 | a list with every key class empty is empty |
| Ranking.StableSortIsUnique | src/contexts/CourseContext.tsx:65-66 | two descending lists with the same elements per key, in the same order, are equal |
| Ranking.StableSortsAgree | src/contexts/CourseContext.tsx:65-66 | any stable descending sort of the courses equals `SortDesc`, so the model's sort is the comparator's stable sort |
| Ranking.TopProperties | src/contexts/CourseContext.tsx:65-66 | `.slice(0, 8)` of the sorted copy has min(n, \|s\|) elements, is sorted, is a sub-multiset, and is all of them when n ≥ \|s\| |
| Ranking.TopDominates | src/contexts/CourseContext.tsx:65-66 | every kept course has a key at least that of every dropped course |
| Ranking.KeyClassAppend | src/contexts/CourseContext.tsx:65-66 | the elements of one key in a concatenation are those of each part, in order |
| Ranking.TopStable | src/contexts/CourseContext.tsx:65-66 | the kept courses of each key are the first ones of that key in repository order |
| Seqs.Filter | src/contexts/CourseContext.tsx:123-151 | `Array.filter`: no longer than the input; every kept element satisfies the predicate; every input element that satisfies it is kept |
| Seqs.FilterMembership | src/contexts/CourseContext.tsx:123-151 | an element is in a filter's result iff it is in the input and satisfies the predicate |
| Seqs.FilterIsSubsequence | src/contexts/CourseContext.tsx:123-151 | a filter's result is a subsequence of its input |
| Seqs.FilterMultiplicity | src/contexts/CourseContext.tsx:123-151 | a filter keeps every occurrence of an element that passes and none of one that fails |
| Seqs.SubsequenceOfTail | src/contexts/CourseContext.tsx:123-151 | a subsequence of a list's tail is a subsequence of the list |
| Seqs.SubsequenceDropHead | src/contexts/CourseContext.tsx:123-151 | dropping the head of a subsequence keeps it a subsequence |
| Seqs.FilterAppend | src/contexts/CartContext.tsx:48 | filtering a concatenation filters each part |
| Seqs.FilterAll | src/contexts/CourseContext.tsx:123-151 | a filter every element passes returns the input |
| Seqs.FilterNone | src/contexts/CourseContext.tsx:141-147 | a filter no element passes returns the empty list |
| Seqs.FilterExtensional | src/contexts/CourseContext.tsx:123-151 | filters whose predicates agree on the input give the same result |
| Seqs.FilterTwice | src/contexts/CourseContext.tsx:123-151 | two filter steps in a row equal one filter by the conjunction |
| Seqs.FilterDistinct | src/contexts/CourseContext.tsx:73 | filtering a duplicate-free list gives a duplicate-free list |
| Seqs.DistinctCardinality | src/pages/CoursePlayerPage.tsx:106-107 | a duplicate-free list has as many distinct elements as entries |
| Seqs.CardinalityAtMostLength | src/pages/CoursePlayerPage.tsx:106-107 | a list has at most as many distinct elements as entries |
| Seqs.DistinctWithinIsShorter | src/pages/CoursePlayerPage.tsx:106-107 | a duplicate-free list whose elements all occur in another is no longer than it |
| Seqs.SubsetCardinality | src/pages/CoursePlayerPage.tsx:106-107 | a subset is no larger than its superset |
| Text.LowerChar | src/contexts/CourseContext.tsx:122 | the result is never an ASCII upper-case letter, and the character is kept exactly when it is not one |
| Text.Lower | src/contexts/CourseContext.tsx:122 | `toLowerCase` keeps the length, leaves no ASCII upper-case letter, and changes the text exactly when it has one |
| Text.LowerIdempotent | src/contexts/CourseContext.tsx:121-129 | lower-casing twice equals lower-casing once |
| Text.ContainsAt | src/contexts/CourseContext.tsx:126-128 | a needle found at a position is contained (`includes`) |
| Text.ContainsWitness | src/contexts/CourseContext.tsx:126-128 | a contained needle occurs at some position |
| Text.StripWhitespace | src/pages/CheckoutPage.tsx:48 | `replace(/\s/g, '')` leaves no whitespace and never lengthens |
| Text.StripNoWhitespace | src/pages/CheckoutPage.tsx:48 | stripping text that has no whitespace changes nothing |
| CartLedger.Cart.constructor | src/contexts/CartContext.tsx:24 | a new cart is empty |
| CartLedger.Cart.AddItem | src/contexts/CartContext.tsx:40-44 | the items become `Added(old items, course)`, the course's id is in the cart, and a cart with distinct ids keeps distinct ids |
| CartLedger.Cart.RemoveItem | src/contexts/CartContext.tsx:47-49 | the items become `WithoutId(old items, id)`, no item has the id, and a cart with distinct ids keeps distinct ids |
| CartLedger.Cart.ClearCart | src/contexts/CartContext.tsx:52-54 | the cart is empty |
| CartLedger.AddedProperties | src/contexts/CartContext.tsx:40-44 | after adding, the id is in the cart; adding a present id is a no-op; adding an absent one appends the course at the end and raises the total by its list price |
| CartLedger.AddedIdempotent | src/contexts/CartContext.tsx:40-44 | adding the same course twice gives the same cart as once |
| CartLedger.AddedDistinct | src/contexts/CartContext.tsx:40-44 | a cart with distinct ids keeps distinct ids under add |
| CartLedger.WithoutIdProperties | src/contexts/CartContext.tsx:47-49 | removal leaves no item with the id, keeps every other item in order, and is a no-op when the id is absent |
| CartLedger.WithoutIdDistinct | src/contexts/CartContext.tsx:47-49 | a cart with distinct ids keeps distinct ids under remove |
| CartLedger.SubsequenceDistinctIds | src/contexts/CartContext.tsx:47-49 | a subsequence of a cart with distinct ids has distinct ids |
| CartLedger.SubsequenceMembers | src/contexts/CartContext.tsx:47-49 | every element of a subsequence is in the list |
| CartLedger.WithoutIdLowersTotal | src/contexts/CartContext.tsx:47-62 | with non-negative prices, removing items never raises `totalPrice` |
| CartLedger.ListPriceTotalAppend | src/contexts/CartContext.tsx:62 | `totalPrice` of a concatenation is the sum of the parts' totals of list prices |
| Curriculum.TotalLessonsCountsAll | src/pages/CoursePlayerPage.tsx:101-104 | the lesson total is the number of lessons in the flattened curriculum |
| Curriculum.PreviewLessonsCountsPreviews | src/pages/CourseDetailPage.tsx:122-126 | the preview count is the number of preview lessons in the flattened curriculum |
| Curriculum.PreviewAtMostTotal | src/pages/CourseDetailPage.tsx:117-126 | there are never more preview lessons than lessons |
| Curriculum.TotalLessonsAppend | src/pages/CoursePlayerPage.tsx:101-104 | the lesson total of two runs of sections is the sum of their totals |
| Curriculum.NextSectionPosition | src/pages/CoursePlayerPage.tsx:464-466 | the first lesson of the next section follows the last lesson of a non-empty section in curriculum order |
| CourseDetail.LessonCounts | src/pages/CourseDetailPage.tsx:117-126 | the page's lesson and preview counts are those of the flattened curriculum, and previews never exceed lessons |
| CourseDetail.HandleAddToCart | src/pages/CourseDetailPage.tsx:85-94 | purchased → `/learn/<id>` with the cart unchanged; else in cart → `/cart` unchanged; else the course is appended and the page goes to `/cart`; afterwards the course is purchased or in the cart |
| CourseDetail.HandleBuyNow | src/pages/CourseDetailPage.tsx:97-107 | signed out → `/login` with `from` `/courses/<id>` and the cart unchanged; signed in → the course is added only if absent, then `/checkout` |
| CourseDetail.HandleSave | src/pages/CourseDetailPage.tsx:110-114 | with a course id, its saved state flips; without one, nothing changes |
| CourseDetail.LabelAnnouncesAction | src/pages/CourseDetailPage.tsx:265-269 | the label is "Go to Course", "Go to Cart" or "Add to Cart" exactly when Add to Cart opens the course, opens the cart, or adds and then opens the cart |
| Navigation.LearnPathInjective | src/pages/CourseDetailPage.tsx:87 | two courses have the same player path exactly when their ids are equal, and every player path starts with `/learn/` |
| CoursesPage.Decode | src/pages/CoursesPage.tsx:42-56 | a missing text parameter decodes to `""`; a missing or empty numeric parameter decodes to undefined, and any other to `ParseNumeral` of its text; decoding fails only on a price or rating parameter that is not a decimal numeral |
| CoursesPage.ParamsOf | src/pages/CoursesPage.tsx:72-79 | the encoder emits a key exactly for a non-empty text field or a defined number, and never an empty value |
| CoursesPage.DecodeEncode | src/pages/CoursesPage.tsx:42-81 | decoding the encoding of a filter state gives the same six fields back |
| CoursesPage.ClearedEncodesEmpty | src/pages/CoursesPage.tsx:102-109 | the cleared state encodes to the empty parameter map, which decodes back to the cleared state |
| CoursesPage.SearchArgsEquivalent | src/pages/CoursesPage.tsx:61-67 | passing an empty category or level as undefined gives the same search result as passing it as is |
| CoursesPage.ClearedListsEverything | src/pages/CoursesPage.tsx:102-109 | with cleared filters the search lists every course |
| CoursesPage.UniqueProperties | src/pages/CoursesPage.tsx:38-39 | `[...new Set(values)]` is duplicate-free, holds exactly the values, and follows first-occurrence order |
| CoursesPage.CategoriesProperties | src/pages/CoursesPage.tsx:38 | the category list is duplicate-free and holds exactly the categories occurring in the courses |
| CoursesPage.LevelsProperties | src/pages/CoursesPage.tsx:39 | the level list is duplicate-free and holds exactly the levels occurring in the courses |
| CoursesPage.FilterPanel.constructor | src/pages/CoursesPage.tsx:20-25 | the six fields start cleared |
| CoursesPage.FilterPanel.ApplyParams | src/pages/CoursesPage.tsx:42-56 | the six fields become the decoded parameters |
| CoursesPage.FilterPanel.EncodeParams | src/pages/CoursesPage.tsx:72-79 | the conditional assignments build exactly the parameters of the current state |
| CoursesPage.FilterPanel.ClearFilters | src/pages/CoursesPage.tsx:102-109 | the six fields are reset |
| CoursesPage.FilterPanel.ClearPrice | src/pages/CoursesPage.tsx:298-303 | both price bounds become undefined and the other four fields are unchanged |
| Numerals.DigitChar | src/pages/CoursesPage.tsx:77-79 | a digit value prints as a decimal digit character |
| Numerals.DigitValue | src/pages/CoursesPage.tsx:53-55 | a digit character parses to the value that prints as it |
| Numerals.NatText | src/pages/CoursesPage.tsx:77-79 | `toString` of a whole number is a non-empty digit string with no leading zero |
| Numerals.NatTextRoundTrip | src/pages/CoursesPage.tsx:53-79 | parsing the printed whole number gives it back |
| Numerals.PointIndex | src/pages/CoursesPage.tsx:53-55 | the position of the first decimal point, or the length when there is none |
| Numerals.ParseNumeral | src/pages/CoursesPage.tsx:53-55 | `Number()` of a digit string is its value, and any parsed numeral is non-negative |
| Numerals.CentsText | src/pages/CoursesPage.tsx:77-79 | `toString` of an amount in cents is never empty |
| Numerals.AmountText | src/pages/CoursesPage.tsx:77-79 | `toString` of a whole-cent amount is never empty |
| Numerals.CentsTextShape | src/pages/CoursesPage.tsx:77-79 | a whole amount prints without a point; otherwise the text has no trailing zero |
| Numerals.PointIndexAfterDigits | src/pages/CoursesPage.tsx:53-55 | the point after a run of digits is found right after them |
| Numerals.ParsePointed | src/pages/CoursesPage.tsx:53-55 | `w.f` parses to its whole part plus its fraction |
| Numerals.CentsTextRoundTrip | src/pages/CoursesPage.tsx:53-79 | parsing the printed amount in cents gives the amount |
| Numerals.OneDecimal | src/pages/CoursesPage.tsx:53-55 | one fractional digit parses to tenths |
| Numerals.TwoDecimals | src/pages/CoursesPage.tsx:53-55 | two fractional digits parse to hundredths |
| Numerals.AmountTextRoundTrip | src/pages/CoursesPage.tsx:53-79 | `Number(x.toString())` is `x` for every non-negative whole-cent amount |
| CartPage.ValidCartItems | src/pages/CartPage.tsx:20 | a course is kept iff it is in the cart and not purchased; the order is the cart's |
| CartPage.CouponOutcome | src/pages/CartPage.tsx:35-41 | the error is empty exactly for `save20` in any case, and is "Invalid coupon code" with no discount otherwise; what is left after the discount is 80% of the subtotal for a valid code and all of it otherwise; for a non-negative subtotal the discount lies between 0 and the subtotal |
| CartPage.CheckoutRoute | src/pages/CartPage.tsx:45-51 | only a signed-in user reaches `/checkout`; a signed-out user is sent to `/login` with `from` `/cart`, the only case that carries a return path |
| CartPage.CouponForm.constructor | src/pages/CartPage.tsx:15-17 | no code, no error, no discount |
| CartPage.CouponForm.SetCouponCode | src/pages/CartPage.tsx:211 | only the code changes |
| CartPage.CouponForm.ApplyCoupon | src/pages/CartPage.tsx:31-42 | the discount and error become the coupon outcome; after a valid coupon the total is 0.8 × subtotal, otherwise the subtotal |
| CartPage.CouponSpellings | src/pages/CartPage.tsx:35 | `save20`, `SAVE20` and `Save20` are valid; surrounding spaces or a letter O for the zero are not |
| CartPage.StaleDiscount | src/pages/CartPage.tsx:17-36 | a discount kept from a larger subtotal can make the total negative, and is larger than a fresh one |
| CartPage.SubtotalAppend | src/pages/CartPage.tsx:23-26 | the subtotal of a concatenation is the sum of the parts' subtotals |
| CartPage.SubtotalBounds | src/pages/CartPage.tsx:23-26 | with non-negative prices the subtotal is non-negative, and it is at most the list-price total when no discount price exceeds its price |
| CartPage.EmptyViewWhenAllPurchased | src/pages/CartPage.tsx:53-71 | when every cart item is purchased the empty-cart view is shown, however many items the cart holds |
| CartPage.NothingPurchasedKeepsAll | src/pages/CartPage.tsx:20 | with nothing purchased every cart item is valid |
| CartPage.SubtotalVersusTotalPrice | src/pages/CartPage.tsx:23-26 | for a 100 course discounted to 60 and a 50 course, the page's subtotal is 110 while the provider's `totalPrice` is 150 |
| Checkout.Grouped | src/pages/CheckoutPage.tsx:49-51 | grouping into blocks of four adds one space per block boundary |
| Checkout.GroupedLayout | src/pages/CheckoutPage.tsx:49-51 | in the grouped text a space stands exactly at every fifth position; it neither starts nor ends with a space |
| Checkout.SpaceAfterBlocksIsGrouped | src/pages/CheckoutPage.tsx:50 | the regex replacement puts a space after every block of four, including a final full block |
| Checkout.TrimEndUnchanged | src/pages/CheckoutPage.tsx:51 | trimming text that ends in a non-space changes nothing |
| Checkout.FormatIsGrouped | src/pages/CheckoutPage.tsx:47-52 | `formatCardNumber` strips whitespace and groups the rest into blocks of four with single spaces |
| Checkout.GroupedKeepsCharacters | src/pages/CheckoutPage.tsx:49-51 | grouping introduces no whitespace other than the separating spaces |
| Checkout.StripGrouped | src/pages/CheckoutPage.tsx:47-52 | stripping the spaces from grouped text gives the text back |
| Checkout.FormatKeepsCharacters | src/pages/CheckoutPage.tsx:47-52 | the formatted number stripped of spaces is the input stripped of whitespace |
| Checkout.FormatIdempotent | src/pages/CheckoutPage.tsx:47-52 | formatting a formatted number changes nothing |
| Checkout.SixteenDigits | src/pages/CheckoutPage.tsx:47-52 | a 16-digit number formats to 19 characters, with spaces at positions 4, 9 and 14 |
| Checkout.CheckoutTotal | src/pages/CheckoutPage.tsx:89-95 | the total (subtotal plus 5% tax) is never below a non-negative subtotal, and is zero exactly when the subtotal is |
| Checkout.CheckoutTotalBounds | src/pages/CheckoutPage.tsx:89-95 | with non-negative prices, 0 ≤ subtotal ≤ total; when no discount price exceeds its list price, the total is at most 1.05 × the cart's `totalPrice` |
| Checkout.CheckoutCountsPurchasedItems | src/pages/CheckoutPage.tsx:89-92 | the checkout subtotal counts purchased items too: it is at least the cart page's subtotal, and equal when nothing in the cart is purchased |
| Checkout.CheckoutForm.constructor | src/pages/CheckoutPage.tsx:22-35 | the initial form (country `US`), not loading, order not complete |
| Checkout.CheckoutForm.HandleInputChange | src/pages/CheckoutPage.tsx:38-44 | only the named field changes |
| Checkout.CheckoutForm.OnCardNumberInput | src/pages/CheckoutPage.tsx:300-308 | an input whose stripped form is at most 16 digits stores its formatted form; any other input leaves the form unchanged |
| Checkout.CheckoutForm.OnCvvInput | src/pages/CheckoutPage.tsx:374-381 | an input of at most 4 digits is stored as is; any other input leaves the form unchanged |
| Checkout.CheckoutForm.HandleSubmit | src/pages/CheckoutPage.tsx:55-86 | an empty cart changes nothing; otherwise every cart id is purchased (appended after the old purchases), the cart is empty, the order is complete, loading is off, and the page goes to `/dashboard/my-courses` |
| CoursePlayer.NextTarget | src/pages/CoursePlayerPage.tsx:457-473 | no Next is offered exactly on the last lesson of the last section |
| CoursePlayer.PreviousTarget | src/pages/CoursePlayerPage.tsx:447-455 | Previous is offered exactly past the first lesson and never leaves the section |
| CoursePlayer.NextAdvancesOne | src/pages/CoursePlayerPage.tsx:447-473 | Next moves one lesson forward and Previous one lesson back in curriculum order; within a section Previous undoes Next |
| CoursePlayer.TargetsStayInRange | src/pages/CoursePlayerPage.tsx:447-473 | when every section has a lesson, Next and Previous from a valid cursor lead to valid cursors |
| CoursePlayer.NextSectionMayBeEmpty | src/pages/CoursePlayerPage.tsx:464-466 | Next Section into a section with no lessons leads to a cursor that names no lesson |
| CoursePlayer.LessonIds | src/pages/CoursePlayerPage.tsx:101-104 | one id per lesson of the curriculum |
| CoursePlayer.ProgressBounds | src/pages/CoursePlayerPage.tsx:106-107 | with distinct completed ids that are lesson ids, progress lies in 0..100, and it is 100 once every lesson of a non-empty curriculum (with distinct ids) is completed |
| CoursePlayer.RatioBounds | src/pages/CoursePlayerPage.tsx:106-107 | `c / t * 100` lies in 0..100 for `c ≤ t`, and is 100 for `c = t` |
| CoursePlayer.ProgressWithRepeats | src/pages/CoursePlayerPage.tsx:106-107 | a completed list that repeats the only lesson id gives progress 200 |
| CoursePlayer.Player.constructor | src/pages/CoursePlayerPage.tsx:26-29 | first lesson of the first section, nothing completed, sidebar closed |
| CoursePlayer.Player.ToggleLessonCompletion | src/pages/CoursePlayerPage.tsx:85-91 | the completed list is toggled, so the lesson's completion flips; the cursor and sidebar are unchanged |
| CoursePlayer.Player.GoToLesson | src/pages/CoursePlayerPage.tsx:94-98 | the cursor moves to the given lesson and the sidebar closes |
| CoursePlayer.Player.ClickNext | src/pages/CoursePlayerPage.tsx:457-473 | the cursor moves to the Next (or Next Section) target |
| CoursePlayer.Player.ClickPrevious | src/pages/CoursePlayerPage.tsx:447-455 | the cursor moves to the previous lesson of the section |
| RegisterPage.Score | src/pages/RegisterPage.tsx:54-56 | the score is at most 5; it is 0 iff no criterion holds and 5 iff all hold |
| RegisterPage.TextMatchesColor | src/pages/RegisterPage.tsx:59-73 | red goes with no text or "Weak", yellow with "Moderate", green with "Strong" |
| RegisterPage.EmptyPasswordExample | src/pages/RegisterPage.tsx:43-65 | the empty password scores 0 and shows no text |
| RegisterPage.StrongPasswordExample | src/pages/RegisterPage.tsx:43-65 | `Passw0rd!` meets all five criteria and is "Strong" |
| RegisterPage.LowerCasePasswordExample | src/pages/RegisterPage.tsx:43-65 | `password` meets two criteria and is "Weak" |
| RegisterPage.SubmitError | src/pages/RegisterPage.tsx:83-92 | a mismatch is reported whatever the strength; submission passes exactly when the passwords match and the strength text shown is "Moderate" or "Strong", and is refused as too weak exactly when they match and the text is empty or "Weak" |
| RegisterPage.RegisterForm.constructor | src/pages/RegisterPage.tsx:12-30 | empty fields, no criteria met, no error, not loading |
| RegisterPage.RegisterForm.HandleChange | src/pages/RegisterPage.tsx:33-51 | only the named field changes; the criteria are recomputed exactly when that field is the password, so they keep describing the password |
| RegisterPage.RegisterForm.HandleSubmit | src/pages/RegisterPage.tsx:76-104 | on a mismatch or a weak password the error is set and the auth state (user, store, loading) is unchanged; otherwise the error is cleared, the user is signed in and stored under the user key with the form's name and email and no avatar, auth loading is off, and the page goes to `/dashboard` |
| Auth.AuthState.constructor | src/contexts/AuthContext.tsx:30-32 | nobody is signed in and nothing is loading |
| Auth.AuthState.CheckAuth | src/contexts/AuthContext.tsx:35-40 | a stored user is adopted; without one the user is unchanged |
| Auth.AuthState.Login | src/contexts/AuthContext.tsx:43-70 | the demo credentials sign in and store the John Doe record; any other pair fails with "Invalid email or password" and changes neither user nor store; loading is off afterwards; the session is authenticated iff the credentials were valid or it already was |
| Auth.AuthState.Register | src/contexts/AuthContext.tsx:73-95 | signs in and stores a record with the given id, name and email and no avatar |
| Auth.AuthState.Logout | src/contexts/AuthContext.tsx:98-101 | the stored user is removed and nobody is signed in |

## Left out

- Browser storage and JSON: the saved, purchased, cart and completed-lesson
  lists are not persisted, and a `JSON.parse` failure is not modelled. The auth
  store is a map from key to user record. The player writes its list only when
  it is non-empty; this is not modelled.
- Timers and async: the simulated delays in checkout and auth are each a single
  atomic step. The `catch` in checkout's submit, for an error that the
  simulation never raises, is not modelled.
- React effect scheduling: the two effects of the courses page are separate
  operations (`ApplyParams`, `EncodeParams`, `SearchArgs`), and their
  interplay is not modelled.
- Floating point: prices are `real`, with no IEEE rounding, `toFixed` or
  `Math.round`.
- CoursesPage.FilterPanel.ApplyParams: requires that the price and rating
  parameters be decimal numerals (`d+`, `d+.d*`, `.d+`), because `Number()` on other text
  (signs, exponents, whitespace, NaN) is not modelled. `Decode` reports such
  text as `None`.
- CoursesPage.ParamsOf: requires whole-cent, non-negative numbers, because
  `toString()` is modelled only for those. The same holds for
  `CoursesPage.FilterPanel.EncodeParams`. `Numerals.CentsText` and
  `Numerals.AmountText` print every such amount in plain digits; `toString()`
  does so only below 10^21 and switches to exponent notation (`1e+21`) from
  there, which the model does not capture.
- The JS regex engine: the character classes `\s`, `\d` and the special-character
  set are written out. `\s` covers the ASCII and common Unicode spaces, and
  astral characters are not modelled.
- `encodeURIComponent` and the router: a `navigate` call is a recorded `Route`
  (path and optional `from`).
- `Date.now()` is the `id` parameter of `Register`, and `new Date()` parsing
  becomes an integer `createdAt`.
- The redirects of missing courses (detail and player pages), the player's
  redirect for unpurchased courses, and checkout's redirect of an empty cart to
  `/cart` are not modelled. They are effects that depend on loading order.
- Presentation: JSX, animations, the sidebar toggle, playback speed and
  quality, the payment method selector, and the expiry month and year
  selects are not modelled.
- The course fixtures of `src/data/mockCourses.ts` are not part of this model.
- RegisterPage.RegisterForm.HandleSubmit: the `catch` around `register` is not
  modelled, because the mock `register` never throws.
