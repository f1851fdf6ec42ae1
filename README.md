# Product card price comparison

A Dafny model of the comparison logic of the storefront's `ProductCard`
component. The storefront lists one product on two marketplaces, Shopee and
TikTok Shop. The card compares the two offers it receives and derives:

- the `prices` array: the present offers, Shopee first;
- `bestDeal`: the cheapest offer, Shopee on a tie, `null` with no offer;
- `savings`: the price gap when both offers are present, else 0;
- `avgRating`: the mean of the present ratings, 0 when there are none;
- the display decisions built from these: the "Hemat" (savings) badge, the
  "Trending" badge, the rating row, the two price rows with the best price
  highlighted, and the "Terbaik di ..." (best at ...) footer.

Prices are whole Rupiah (`int`). Ratings are exact `real`s in place of
JavaScript doubles. A number counts as present when JavaScript treats it as
truthy: defined and not 0. So a price or rating of 0 is treated exactly like
a missing one.

Files:

- `options.dfy`: `Option`, for the optional fields of the product record.
- `product_card.dfy`: module `ProductCard`. It holds the data, the array
  operations (`filter(Boolean)`, both `reduce`s), the comparison, the display
  decisions and their properties.
- `examples_catalogue.dfy`: module `CatalogueExamples`. It checks products
  from the storefront's dummy catalogue against the model.

The JavaScript array operations are modelled for arrays of any length:
`Compact` and `FilterTruthy` for `filter(Boolean)`, `MinReduce` and
`SumReduce` for the two `reduce` calls. Their properties are proved by
induction, and then used for the card's two-entry arrays.

Notes on the code's behaviour:

- With no ratings, the code's average is the number 0, not an absent value.
  The rating row is hidden by the `avgRating > 0` test alone.
- A rating of 0 is dropped by `filter(Boolean)`, so it does not count as a
  present rating.
- A price of 0 is dropped in the same way, so it is not a present offer.

## Model

| member | source | states |
|---|---|---|
| `ProductCard.Compact` | components/products/ProductCard.tsx:24-27 | `filter(Boolean)` on offers keeps exactly the non-null entries and never lengthens the array |
| `ProductCard.CompactAppend` | components/products/ProductCard.tsx:24-27 | `filter(Boolean)` distributes over concatenation, so the kept entries stay in their original order |
| `ProductCard.FilterTruthy` | components/products/ProductCard.tsx:38 | `filter(Boolean)` on optional numbers never lengthens the array, and a value is in the result iff it is non-zero and defined in the input |
| `ProductCard.FilterTruthyAppend` | components/products/ProductCard.tsx:38 | `filter(Boolean)` on numbers distributes over concatenation, so it keeps every truthy entry, duplicates included, in order |
| `ProductCard.FilterTruthySingle` | components/products/ProductCard.tsx:38 | on a one-entry array, `filter(Boolean)` keeps the entry iff it is truthy; with the append lemma this fixes the result for every input |
| `ProductCard.Entry` | components/products/ProductCard.tsx:25-26 | an entry `{ platform, price }` is produced iff the price is truthy, and then it carries that platform and exactly that price |
| `ProductCard.Prices` | components/products/ProductCard.tsx:24-27 | `prices` is the Shopee offer (if its price is truthy) followed by the TikTok offer (if truthy); an offer is in it iff its platform's price is truthy and equal to it |
| `ProductCard.MinReduce` | components/products/ProductCard.tsx:30 | the reduce returns one of its inputs, and its price is at most every input price |
| `ProductCard.MinReduceFirst` | components/products/ProductCard.tsx:30 | the reduce returns the FIRST entry of least price, because a later entry replaces the running minimum only when strictly cheaper |
| `ProductCard.FirstMinimumUnique` | components/products/ProductCard.tsx:30 | the first-least-price predicate holds of one index only, so `MinReduceFirst` fully characterizes the reduce's result |
| `ProductCard.BestDeal` | components/products/ProductCard.tsx:29-31 | `bestDeal` is absent iff neither price is truthy; otherwise its platform has a truthy price equal to the deal's price, which is at most every price in `prices` |
| `ProductCard.NoOffers` | components/products/ProductCard.tsx:24-35 | with no truthy price, `prices` is empty, `bestDeal` is absent and savings is 0 |
| `ProductCard.OneOffer` | components/products/ProductCard.tsx:24-35 | with exactly one truthy price, that offer is the whole of `prices` and the best deal, unconditionally, and savings is 0 |
| `ProductCard.TwoOffers` | components/products/ProductCard.tsx:29-31 | with both prices truthy, the best price is at most both prices, and the best platform is TikTok iff the TikTok price is strictly lower (Shopee on a tie) |
| `ProductCard.BestDealSwap` | components/products/ProductCard.tsx:29-31 | with two distinct prices, exchanging the platforms' fields moves the best deal to the other platform at the same price |
| `ProductCard.Savings` | components/products/ProductCard.tsx:33-35 | savings is never negative; it is 0 unless both prices are truthy, and then it is the absolute difference of the two prices |
| `ProductCard.SavingsSymmetric` | components/products/ProductCard.tsx:33-35 | savings is unchanged when the two platforms' fields are exchanged |
| `ProductCard.BestPlusSavings` | components/products/ProductCard.tsx:29-35 | with both prices truthy, the best price plus the savings equals the higher price |
| `ProductCard.Ratings` | components/products/ProductCard.tsx:38 | `ratings` is the truthy Shopee rating followed by the truthy TikTok rating; a value is in it iff it is one of those |
| `ProductCard.SumReduce` | components/products/ProductCard.tsx:40 | the left fold `reduce((sum, r) => sum + r, acc)` equals `acc` plus the sum of the values, defined independently as a right fold |
| `ProductCard.SumReduceBounds` | components/products/ProductCard.tsx:40 | a sum-reduce from `acc` over n values in [lo, hi] lies between acc plus n copies of lo and acc plus n copies of hi |
| `ProductCard.MeanWithin` | components/products/ProductCard.tsx:39-41 | the mean of a non-empty array of values in [lo, hi] lies in [lo, hi] |
| `ProductCard.SumReducePositive` | components/products/ProductCard.tsx:40 | summing a non-empty array of positive values strictly increases the accumulator |
| `ProductCard.AvgRating` | components/products/ProductCard.tsx:38-41 | the average is 0 with no truthy rating; it stays within [0, 5] when the ratings do; for non-negative ratings it is positive iff at least one rating is truthy |
| `ProductCard.OneRating` | components/products/ProductCard.tsx:38-41 | with exactly one truthy rating, the average equals that rating |
| `ProductCard.TwoRatings` | components/products/ProductCard.tsx:38-41 | with two truthy ratings, the average is their midpoint and lies between their minimum and maximum |
| `ProductCard.PriceSlotAsWritten` | components/products/ProductCard.tsx:100-115 | as written, a price row is shown iff the price is truthy, but a price of 0 renders the stray text "0" |
| `ProductCard.PriceSlot` | components/products/ProductCard.tsx:100-115 | a price row is shown iff the offer is present, carries that platform's price, and is highlighted iff the platform is the best deal's; nothing else is ever rendered |
| `ProductCard.ZeroPriceRendersStrayText` | components/products/ProductCard.tsx:100 | a zero price is not a present offer, yet the slot as written renders "0" where the corrected slot renders nothing |
| `ProductCard.PriceSlotAgrees` | components/products/ProductCard.tsx:100-115 | the as-written and the corrected slots agree on every price other than 0 |
| `ProductCard.Render` | components/products/ProductCard.tsx:62-125 | the savings badge shows iff both prices are truthy and differ, with a positive amount equal to their difference; trending iff views > 100; the rating row iff the average is positive (for non-negative ratings: iff some rating is truthy), and it shows the average; each price row iff its offer is present, carrying that platform's price, highlighted iff that platform is the best deal, and a highlighted price is at most every price in `prices`; exactly one row is highlighted whenever an offer is present; the footer names Shopee or "TikTok Shop" iff that platform is the best deal. The slots are the corrected ones: for a price of 0 a slot renders nothing, where lines 100 and 108 as written render "0" |
| `ProductCard.DisplayName` | components/products/ProductCard.tsx:122 | the footer names Shopee "Shopee" and TikTok "TikTok Shop", and no other platform gets either name |
| `CatalogueExamples.Powerbank` | app/products/page.tsx:17-28 | Shopee 250000 and TikTok 245000 give best deal TikTok at 245000, savings 5000, average rating 4.85, a trending badge |
| `CatalogueExamples.Earbuds` | app/products/page.tsx:29-40 | Shopee 150000 and TikTok 155000 give best deal Shopee at 150000, savings 5000, average rating 4.55 |
| `CatalogueExamples.ShopeeOnly` | components/products/ProductCard.tsx:24-41 | a Shopee-only product at 299000 has best deal Shopee, savings 0 and no savings badge |
| `CatalogueExamples.Tie` | components/products/ProductCard.tsx:30 | equal prices keep Shopee as best deal, with no savings badge; no ratings give average 0 and no rating row |
| `CatalogueExamples.ZeroPrice` | components/products/ProductCard.tsx:24-41 | a TikTok price of 0 and a TikTok rating of 0 are both absent: best deal Shopee, savings 0, average equal to the Shopee rating |

## Left out

- `formatPrice` (components/products/ProductCard.tsx:133-140) is not modelled. It formats a price as Indonesian Rupiah through the platform's `Intl.NumberFormat`, a foreign library. The savings badge carries the number it would format.
- `AvgRating` is the exact mean over `real`; the display rounding `avgRating.toFixed(1)` (components/products/ProductCard.tsx:91) is IEEE floating-point formatting and is not modelled. For 4.8 and 4.9 the model gives 4.85 exactly.
- Prices are integers (whole Rupiah, as in all catalogue and seed data). Fractional prices, `NaN` and the floating-point rounding of sums of ratings are not modelled.
- All markup is left out: images, links, cards, badge styling, the category and name text, and the layout, header and footer components.
- The product listing page (app/products/page.tsx) is not modelled. Its filter, sort and pagination controls are not wired to any logic. Its dummy data is used only as example inputs.
- The product detail page (app/products/[slug]/page.tsx) is not modelled. It computes its own best deal at line 97, and on equal prices it picks TikTok, unlike the card.
- The seed script (prisma/seed.ts) is database I/O and is not modelled. Its `aiBestPlatform` field (line 58) is entered by hand. The model does not derive it from, or tie it to, `BestDeal`.

## Findings

| source | as written | input that shows it | evidently intended | confidence | as-written member | corrected member |
|---|---|---|---|---|---|---|
| components/products/ProductCard.tsx:100-115 | each price row is guarded by `{product.shopeePrice && (...)}` / `{product.tiktokPrice && (...)}`; React renders the number 0 that such a guard yields as the text "0" | `shopeePrice = 0` (or `tiktokPrice = 0`): the offer is absent from `prices`, yet a stray "0" appears in the price list | an absent offer (price 0 or undefined) renders nothing, e.g. `{!!product.shopeePrice && (...)}` | medium; not executed | `ProductCard.PriceSlotAsWritten` (exhibited by `ProductCard.ZeroPriceRendersStrayText`) | `ProductCard.PriceSlot` (used by `ProductCard.Render`) |
