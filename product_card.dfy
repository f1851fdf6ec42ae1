/**
  The price and rating comparison at the top of the `ProductCard` component,
  and the display decisions of the card that depend on it.

  Prices are whole Rupiah (`int`); ratings are exact `real`s. A JavaScript
  number is "truthy" when it is defined and not 0, so a price or rating of 0
  counts as absent exactly like an undefined one.
 */
module ProductCard {

  import opened Options

  datatype Platform = Shopee | TikTok

  /** One entry of the card's `prices` array. */
  datatype Offer = Offer(platform: Platform, price: int)

  /** The fields of a product record that the comparison reads. */
  datatype Product = Product(
    shopeePrice: Option<int>,
    tiktokPrice: Option<int>,
    shopeeRating: Option<real>,
    tiktokRating: Option<real>,
    views: int)

  // ---------------------------------------------------------------------------
  // JavaScript truthiness and the per-platform fields
  // ---------------------------------------------------------------------------

  predicate PriceTruthy(price: Option<int>) {
    price.Some? && price.value != 0
  }

  predicate RatingTruthy(rating: Option<real>) {
    rating.Some? && rating.value != 0.0
  }

  function Other(platform: Platform): Platform {
    match platform
    case Shopee => TikTok
    case TikTok => Shopee
  }

  function PriceOf(p: Product, platform: Platform): Option<int> {
    match platform
    case Shopee => p.shopeePrice
    case TikTok => p.tiktokPrice
  }

  /** The platform has an offer on the card: its price is truthy. */
  predicate Listed(p: Product, platform: Platform) {
    PriceTruthy(PriceOf(p, platform))
  }

  /** The product with its Shopee and TikTok fields exchanged. */
  function Swap(p: Product): Product {
    Product(p.tiktokPrice, p.shopeePrice, p.tiktokRating, p.shopeeRating, p.views)
  }

  function Abs(x: int): int {
    if x < 0 then -x else x
  }

  function Max(x: int, y: int): int {
    if x < y then y else x
  }

  // ---------------------------------------------------------------------------
  // The JavaScript array operations the component uses
  // ---------------------------------------------------------------------------

  /** `filter(Boolean)` over an array of objects and `null`s: keeps the objects, in order. */
  function Compact(xs: seq<Option<Offer>>): (r: seq<Offer>)
    ensures |r| <= |xs|
    ensures forall v :: v in r <==> Some(v) in xs
  {
    if xs == [] then []
    else (if xs[0].Some? then [xs[0].value] else []) + Compact(xs[1..])
  }

  /** `filter(Boolean)` over an array of optional numbers: drops `undefined` and 0, keeps order. */
  function FilterTruthy(xs: seq<Option<real>>): (r: seq<real>)
    ensures |r| <= |xs|
    ensures forall x :: x in r <==> x != 0.0 && Some(x) in xs
  {
    if xs == [] then []
    else (if RatingTruthy(xs[0]) then [xs[0].value] else []) + FilterTruthy(xs[1..])
  }

  /**
    `xs.reduce((min, curr) => curr.price < min.price ? curr : min, acc)`:
    the running minimum is replaced only by a strictly lower price.
   */
  function MinReduce(acc: Offer, xs: seq<Offer>): (r: Offer)
    ensures r == acc || r in xs
    ensures r.price <= acc.price
    ensures forall o :: o in xs ==> r.price <= o.price
    decreases |xs|
  {
    if xs == [] then acc
    else MinReduce(if xs[0].price < acc.price then xs[0] else acc, xs[1..])
  }

  /** The mathematical sum of a sequence, added from the right. */
  function Sum(xs: seq<real>): real {
    if xs == [] then 0.0 else xs[0] + Sum(xs[1..])
  }

  /**
    `xs.reduce((sum, r) => sum + r, acc)`: a left fold, which adds up to `acc`
    plus the sum of the values.
   */
  function SumReduce(acc: real, xs: seq<real>): (r: real)
    ensures r == acc + Sum(xs)
    decreases |xs|
  {
    if xs == [] then acc else SumReduce(acc + xs[0], xs[1..])
  }

  /** `s[k]` is the first element of `s` with the least price. */
  ghost predicate IsFirstMinimum(s: seq<Offer>, k: int) {
    && 0 <= k < |s|
    && (forall j :: 0 <= j < |s| ==> s[k].price <= s[j].price)
    && (forall j :: 0 <= j < k ==> s[j].price > s[k].price)
  }

  // ---------------------------------------------------------------------------
  // The comparison block
  // ---------------------------------------------------------------------------

  /** `price ? { platform, price } : null` */
  function Entry(platform: Platform, price: Option<int>): (e: Option<Offer>)
    ensures e.Some? <==> PriceTruthy(price)
    ensures e.Some? ==> e.value.platform == platform && Some(e.value.price) == price
  {
    if PriceTruthy(price) then Some(Offer(platform, price.value)) else None
  }

  /** The offer a platform contributes to `prices`: one entry when its price is truthy. */
  function OfferOf(p: Product, platform: Platform): seq<Offer> {
    if Listed(p, platform) then [Offer(platform, PriceOf(p, platform).value)] else []
  }

  /** The `prices` array: the present offers, Shopee before TikTok. */
  function Prices(p: Product): (r: seq<Offer>)
    ensures r == OfferOf(p, Shopee) + OfferOf(p, TikTok)
    ensures |r| == (if Listed(p, Shopee) then 1 else 0) + (if Listed(p, TikTok) then 1 else 0)
    ensures forall o :: o in r <==> Listed(p, o.platform) && PriceOf(p, o.platform) == Some(o.price)
  {
    var entries := [Entry(Shopee, p.shopeePrice), Entry(TikTok, p.tiktokPrice)];
    assert entries[1..] == [Entry(TikTok, p.tiktokPrice)];
    assert entries[1..][1..] == [];
    assert Compact(entries[1..]) == OfferOf(p, TikTok) + [];
    Compact(entries)
  }

  /** `bestDeal`: the cheapest present offer, `None` when there is none. */
  function BestDeal(p: Product): (r: Option<Offer>)
    ensures r.None? <==> !Listed(p, Shopee) && !Listed(p, TikTok)
    ensures r.Some? ==> Listed(p, r.value.platform) && PriceOf(p, r.value.platform) == Some(r.value.price)
    ensures r.Some? ==> forall o :: o in Prices(p) ==> r.value.price <= o.price
  {
    var prices := Prices(p);
    if |prices| > 0 then
      assert forall o :: o in prices ==> o == prices[0] || o in prices[1..];
      Some(MinReduce(prices[0], prices[1..]))
    else
      None
  }

  /** `savings`: the price gap when both platforms are present, otherwise 0. */
  function Savings(p: Product): (r: int)
    ensures r >= 0
    ensures !(Listed(p, Shopee) && Listed(p, TikTok)) ==> r == 0
    ensures Listed(p, Shopee) && Listed(p, TikTok) ==>
      r == Abs(p.shopeePrice.value - p.tiktokPrice.value)
  {
    var prices := Prices(p);
    if |prices| == 2 then Abs(prices[0].price - prices[1].price) else 0
  }

  /** The rating a platform contributes to `ratings`: one entry when it is truthy. */
  function RatingOf(rating: Option<real>): seq<real> {
    if RatingTruthy(rating) then [rating.value] else []
  }

  /** The `ratings` array: the truthy ratings, Shopee before TikTok. */
  function Ratings(p: Product): (r: seq<real>)
    ensures r == RatingOf(p.shopeeRating) + RatingOf(p.tiktokRating)
    ensures forall x :: x in r <==>
      (RatingTruthy(p.shopeeRating) && x == p.shopeeRating.value) ||
      (RatingTruthy(p.tiktokRating) && x == p.tiktokRating.value)
  {
    var entries := [p.shopeeRating, p.tiktokRating];
    assert entries[1..] == [p.tiktokRating];
    assert entries[1..][1..] == [];
    assert FilterTruthy(entries[1..]) == RatingOf(p.tiktokRating) + [];
    FilterTruthy(entries)
  }

  /** Every rating the product carries is non-negative. */
  predicate RatingsNonNegative(p: Product) {
    && (p.shopeeRating.Some? ==> p.shopeeRating.value >= 0.0)
    && (p.tiktokRating.Some? ==> p.tiktokRating.value >= 0.0)
  }

  /** Every rating the product carries lies in the marketplace scale [0, 5]. */
  predicate RatingsOnScale(p: Product) {
    && (p.shopeeRating.Some? ==> 0.0 <= p.shopeeRating.value <= 5.0)
    && (p.tiktokRating.Some? ==> 0.0 <= p.tiktokRating.value <= 5.0)
  }

  /** `avgRating`: the mean of the truthy ratings, and 0 (not absent) when there are none. */
  function AvgRating(p: Product): (r: real)
    ensures |Ratings(p)| == 0 ==> r == 0.0
    ensures RatingsOnScale(p) ==> 0.0 <= r <= 5.0
    ensures RatingsNonNegative(p) ==>
      (r > 0.0 <==> RatingTruthy(p.shopeeRating) || RatingTruthy(p.tiktokRating))
  {
    var ratings := Ratings(p);
    if |ratings| > 0 then
      var n := |ratings| as real;
      assert RatingsOnScale(p) ==> 0.0 <= SumReduce(0.0, ratings) / n <= 5.0 by {
        if RatingsOnScale(p) {
          MeanWithin(ratings, 0.0, 5.0);
        }
      }
      assert RatingsNonNegative(p) ==> SumReduce(0.0, ratings) / n > 0.0 by {
        if RatingsNonNegative(p) {
          SumReducePositive(0.0, ratings);
        }
      }
      SumReduce(0.0, ratings) / n
    else
      0.0
  }

  // ---------------------------------------------------------------------------
  // General facts about the array operations
  // ---------------------------------------------------------------------------

  /** `filter(Boolean)` distributes over concatenation, so it preserves order. */
  lemma {:induction false} CompactAppend(a: seq<Option<Offer>>, b: seq<Option<Offer>>)
    ensures Compact(a + b) == Compact(a) + Compact(b)
    decreases |a|
  {
    if a == [] {
      assert a + b == b;
    } else {
      assert (a + b)[0] == a[0];
      assert (a + b)[1..] == a[1..] + b;
      CompactAppend(a[1..], b);
    }
  }

  /** `filter(Boolean)` on numbers distributes over concatenation, so it keeps order and duplicates. */
  lemma {:induction false} FilterTruthyAppend(a: seq<Option<real>>, b: seq<Option<real>>)
    ensures FilterTruthy(a + b) == FilterTruthy(a) + FilterTruthy(b)
    decreases |a|
  {
    if a == [] {
      assert a + b == b;
    } else {
      assert (a + b)[0] == a[0];
      assert (a + b)[1..] == a[1..] + b;
      FilterTruthyAppend(a[1..], b);
    }
  }

  /** On one entry, `filter(Boolean)` keeps it exactly when it is truthy. */
  lemma FilterTruthySingle(x: Option<real>)
    ensures FilterTruthy([x]) == RatingOf(x)
  {
    assert [x][1..] == [];
  }

  /**
    The reduce keeps the FIRST offer of least price: on a tie the earlier
    entry wins, because a later one replaces it only when strictly cheaper.
   */
  lemma {:induction false} MinReduceFirst(acc: Offer, xs: seq<Offer>)
    ensures exists k :: IsFirstMinimum([acc] + xs, k) && ([acc] + xs)[k] == MinReduce(acc, xs)
    decreases |xs|
  {
    var s := [acc] + xs;
    var r := MinReduce(acc, xs);
    if xs == [] {
      assert IsFirstMinimum(s, 0) && s[0] == r;
    } else {
      var acc' := if xs[0].price < acc.price then xs[0] else acc;
      var s' := [acc'] + xs[1..];
      MinReduceFirst(acc', xs[1..]);
      var k' :| IsFirstMinimum(s', k') && s'[k'] == r;
      assert forall j :: 1 <= j < |s'| ==> s'[j] == s[j + 1];
      assert s[0] == acc && s[1] == xs[0] && s'[0] == acc';
      assert acc'.price <= acc.price && acc'.price <= xs[0].price;
      assert forall j :: 2 <= j < |s| ==> s[j] == s'[j - 1];
      var k := if k' > 0 then k' + 1 else if xs[0].price < acc.price then 1 else 0;
      assert s[k] == r;
      forall j | 0 <= j < |s|
        ensures s[k].price <= s[j].price
      {
        if j >= 2 {
          assert s'[k'].price <= s'[j - 1].price;
        } else {
          assert s'[k'].price <= s'[0].price;
        }
      }
      forall j | 0 <= j < k
        ensures s[j].price > s[k].price
      {
        if j >= 2 {
          assert s'[j - 1].price > s'[k'].price;
        } else if k' > 0 {
          assert s'[0].price > s'[k'].price;
        }
      }
      assert IsFirstMinimum(s, k);
    }
  }

  /** The first least element of a sequence is unique. */
  lemma FirstMinimumUnique(s: seq<Offer>, k1: int, k2: int)
    requires IsFirstMinimum(s, k1) && IsFirstMinimum(s, k2)
    ensures k1 == k2
  {
    assert s[k1].price <= s[k2].price && s[k2].price <= s[k1].price;
  }

  /** `n` copies of `x` added up, the additive reading of `n * x`. */
  function Times(n: nat, x: real): real {
    if n == 0 then 0.0 else Times(n - 1, x) + x
  }

  lemma {:induction false} TimesIsProduct(n: nat, x: real)
    ensures Times(n, x) == (n as real) * x
  {
    if n > 0 {
      TimesIsProduct(n - 1, x);
      assert (n as real) * x == ((n - 1) as real) * x + x;
    }
  }

  /** A fold of `+` over values in [lo, hi] adds between `n` copies of lo and `n` copies of hi. */
  lemma {:induction false} SumReduceBounds(acc: real, xs: seq<real>, lo: real, hi: real)
    requires forall x :: x in xs ==> lo <= x <= hi
    ensures acc + Times(|xs|, lo) <= SumReduce(acc, xs) <= acc + Times(|xs|, hi)
    decreases |xs|
  {
    if xs != [] {
      var rest := xs[1..];
      assert xs[0] in xs;
      assert forall x :: x in rest ==> x in xs;
      SumReduceBounds(acc + xs[0], rest, lo, hi);
    }
  }

  /** Dividing bounds by `n` copies of lo and hi by a positive `n`. */
  lemma DivideBounds(s: real, n: nat, lo: real, hi: real)
    requires n > 0
    requires Times(n, lo) <= s <= Times(n, hi)
    ensures lo <= s / (n as real) <= hi
  {
    TimesIsProduct(n, lo);
    TimesIsProduct(n, hi);
    var m := s / (n as real);
    assert s == m * (n as real);
    assert (m - lo) * (n as real) >= 0.0 && (hi - m) * (n as real) >= 0.0;
  }

  /** The mean of a non-empty array of values in [lo, hi] lies in [lo, hi]. */
  lemma MeanWithin(xs: seq<real>, lo: real, hi: real)
    requires |xs| > 0
    requires forall x :: x in xs ==> lo <= x <= hi
    ensures lo <= SumReduce(0.0, xs) / (|xs| as real) <= hi
  {
    SumReduceBounds(0.0, xs, lo, hi);
    DivideBounds(SumReduce(0.0, xs), |xs|, lo, hi);
  }

  /** Summing a non-empty array whose values are all positive strictly increases the accumulator. */
  lemma {:induction false} SumReducePositive(acc: real, xs: seq<real>)
    requires |xs| > 0
    requires forall x :: x in xs ==> x > 0.0
    ensures SumReduce(acc, xs) > acc
    decreases |xs|
  {
    assert xs[0] in xs;
    if |xs| == 1 {
      assert xs[1..] == [];
    } else {
      assert forall x :: x in xs[1..] ==> x in xs;
      SumReducePositive(acc + xs[0], xs[1..]);
    }
  }

  // ---------------------------------------------------------------------------
  // Properties of the comparison
  // ---------------------------------------------------------------------------

  /** With no truthy price there is no best deal and no savings. */
  lemma NoOffers(p: Product)
    requires !Listed(p, Shopee) && !Listed(p, TikTok)
    ensures Prices(p) == []
    ensures BestDeal(p) == None
    ensures Savings(p) == 0
  {
  }

  /** With exactly one truthy price, that offer is the best deal unconditionally. */
  lemma OneOffer(p: Product, platform: Platform)
    requires Listed(p, platform) && !Listed(p, Other(platform))
    ensures Prices(p) == [Offer(platform, PriceOf(p, platform).value)]
    ensures BestDeal(p) == Some(Offer(platform, PriceOf(p, platform).value))
    ensures Savings(p) == 0
  {
    var prices := Prices(p);
    assert |prices| == 1;
    assert prices[0] in prices;
  }

  /**
    With both prices truthy the best deal is the cheaper one, and on equal
    prices it is Shopee, the first entry of `prices`.
   */
  lemma TwoOffers(p: Product)
    requires Listed(p, Shopee) && Listed(p, TikTok)
    ensures BestDeal(p).Some?
    ensures BestDeal(p).value.price <= p.shopeePrice.value
    ensures BestDeal(p).value.price <= p.tiktokPrice.value
    ensures BestDeal(p).value.platform == TikTok <==> p.tiktokPrice.value < p.shopeePrice.value
  {
    var prices := Prices(p);
    assert prices == [Offer(Shopee, p.shopeePrice.value), Offer(TikTok, p.tiktokPrice.value)] by {
      assert prices[0] in prices && prices[1] in prices;
    }
    assert prices[1..] == [prices[1]];
    MinReduceFirst(prices[0], prices[1..]);
    assert [prices[0]] + prices[1..] == prices;
  }

  /** When both prices are present, the best price plus the savings is the higher price. */
  lemma BestPlusSavings(p: Product)
    requires Listed(p, Shopee) && Listed(p, TikTok)
    ensures BestDeal(p).Some?
    ensures BestDeal(p).value.price + Savings(p) == Max(p.shopeePrice.value, p.tiktokPrice.value)
  {
    TwoOffers(p);
  }

  /** Savings do not depend on which platform carries which price. */
  lemma SavingsSymmetric(p: Product)
    ensures Savings(Swap(p)) == Savings(p)
  {
    assert PriceOf(Swap(p), Shopee) == PriceOf(p, TikTok);
    assert PriceOf(Swap(p), TikTok) == PriceOf(p, Shopee);
  }

  /** With distinct prices the best deal is the cheaper one whichever side it is on. */
  lemma BestDealSwap(p: Product)
    requires Listed(p, Shopee) && Listed(p, TikTok)
    requires p.shopeePrice.value != p.tiktokPrice.value
    ensures BestDeal(Swap(p)).Some? && BestDeal(p).Some?
    ensures BestDeal(Swap(p)).value == Offer(Other(BestDeal(p).value.platform), BestDeal(p).value.price)
  {
    TwoOffers(p);
    TwoOffers(Swap(p));
  }

  /** With exactly one truthy rating the average is that rating. */
  lemma OneRating(p: Product)
    requires RatingTruthy(p.shopeeRating) != RatingTruthy(p.tiktokRating)
    ensures AvgRating(p) ==
      (if RatingTruthy(p.shopeeRating) then p.shopeeRating.value else p.tiktokRating.value)
  {
    var ratings := Ratings(p);
    assert |ratings| == 1;
    assert ratings[1..] == [];
    assert SumReduce(0.0, ratings) == SumReduce(ratings[0], []) == ratings[0];
  }

  /** With two truthy ratings the average is their midpoint, between the two. */
  lemma TwoRatings(p: Product)
    requires RatingTruthy(p.shopeeRating) && RatingTruthy(p.tiktokRating)
    ensures AvgRating(p) == (p.shopeeRating.value + p.tiktokRating.value) / 2.0
    ensures var a, b := p.shopeeRating.value, p.tiktokRating.value;
      (if a < b then a else b) <= AvgRating(p) <= (if a < b then b else a)
  {
    var ratings := Ratings(p);
    assert ratings == [p.shopeeRating.value, p.tiktokRating.value] by {
      assert [p.shopeeRating, p.tiktokRating][1..] == [p.tiktokRating];
      assert [p.shopeeRating, p.tiktokRating][1..][1..] == [];
    }
    assert ratings[1..] == [p.tiktokRating.value] && ratings[1..][1..] == [];
    assert SumReduce(0.0, ratings) == SumReduce(ratings[0], ratings[1..])
      == SumReduce(ratings[0] + ratings[1], []);
  }

  // ---------------------------------------------------------------------------
  // The card's display decisions
  // ---------------------------------------------------------------------------

  /** What a price slot of the card renders. */
  datatype Slot = Nothing | PriceRow(price: int, highlighted: bool) | StrayText(text: string)

  /**
    A price slot as written, `{price && (<row/>)}`: React renders `undefined`
    as nothing but renders the number 0 as the text "0".
   */
  function PriceSlotAsWritten(p: Product, platform: Platform): (s: Slot)
    ensures s.PriceRow? <==> Listed(p, platform)
    ensures PriceOf(p, platform) == Some(0) ==> s == StrayText("0")
  {
    match PriceOf(p, platform)
    case None => Nothing
    case Some(v) =>
      if v == 0 then StrayText("0")
      else PriceRow(v, BestDeal(p).Some? && BestDeal(p).value.platform == platform)
  }

  /** A price slot as intended: the row when the offer is present, otherwise nothing. */
  function PriceSlot(p: Product, platform: Platform): (s: Slot)
    ensures s.PriceRow? <==> Listed(p, platform)
    ensures !s.StrayText?
    ensures s.PriceRow? ==> Some(s.price) == PriceOf(p, platform)
    ensures s.PriceRow? ==>
      (s.highlighted <==> BestDeal(p).Some? && BestDeal(p).value.platform == platform)
  {
    if Listed(p, platform)
    then PriceRow(PriceOf(p, platform).value, BestDeal(p).Some? && BestDeal(p).value.platform == platform)
    else Nothing
  }

  /** A zero price is an absent offer, yet the slot as written still renders something. */
  lemma ZeroPriceRendersStrayText(p: Product, platform: Platform)
    requires PriceOf(p, platform) == Some(0)
    ensures !Listed(p, platform)
    ensures PriceSlotAsWritten(p, platform) == StrayText("0")
    ensures PriceSlot(p, platform) == Nothing
  {
  }

  /** The two renderings agree on every price that is not 0. */
  lemma PriceSlotAgrees(p: Product, platform: Platform)
    requires PriceOf(p, platform) != Some(0)
    ensures PriceSlotAsWritten(p, platform) == PriceSlot(p, platform)
  {
  }

  /** The decisions the card makes from the comparison. */
  datatype CardView = CardView(
    savingsBadge: Option<int>,   // "Hemat <savings>"
    trendingBadge: bool,
    ratingRow: Option<real>,     // the average rating, before display rounding
    shopeeSlot: Slot,
    tiktokSlot: Slot,
    bestLabel: Option<string>)   // "Terbaik di <platform name>"

  /** The name the footer gives a platform. */
  function DisplayName(platform: Platform): (name: string)
    ensures name == "Shopee" <==> platform == Shopee
    ensures name == "TikTok Shop" <==> platform == TikTok
  {
    match platform
    case Shopee => assert "Shopee"[0] != "TikTok Shop"[0]; "Shopee"
    case TikTok => assert "TikTok Shop"[0] != "Shopee"[0]; "TikTok Shop"
  }

  /**
    The card's display decisions. The price slots are the corrected
    `PriceSlot`: for a price of 0 a slot renders nothing, where the markup as
    written renders the text "0" (see `PriceSlotAsWritten`).
   */
  function Render(p: Product): (v: CardView)
    ensures v.savingsBadge.Some? <==>
      Listed(p, Shopee) && Listed(p, TikTok) && p.shopeePrice.value != p.tiktokPrice.value
    ensures v.savingsBadge.Some? ==>
      v.savingsBadge.value > 0 && v.savingsBadge.value == Abs(p.shopeePrice.value - p.tiktokPrice.value)
    ensures v.trendingBadge <==> p.views > 100
    ensures v.ratingRow.Some? <==> AvgRating(p) > 0.0
    ensures v.ratingRow.Some? ==> v.ratingRow.value == AvgRating(p)
    ensures RatingsNonNegative(p) ==>
      (v.ratingRow.Some? <==> RatingTruthy(p.shopeeRating) || RatingTruthy(p.tiktokRating))
    ensures v.shopeeSlot.PriceRow? <==> Listed(p, Shopee)
    ensures v.tiktokSlot.PriceRow? <==> Listed(p, TikTok)
    ensures !v.shopeeSlot.StrayText? && !v.tiktokSlot.StrayText?
    ensures v.shopeeSlot.PriceRow? ==> Some(v.shopeeSlot.price) == p.shopeePrice
    ensures v.tiktokSlot.PriceRow? ==> Some(v.tiktokSlot.price) == p.tiktokPrice
    ensures v.shopeeSlot.PriceRow? ==>
      (v.shopeeSlot.highlighted <==> BestDeal(p).Some? && BestDeal(p).value.platform == Shopee)
    ensures v.tiktokSlot.PriceRow? ==>
      (v.tiktokSlot.highlighted <==> BestDeal(p).Some? && BestDeal(p).value.platform == TikTok)
    ensures v.shopeeSlot.PriceRow? && v.shopeeSlot.highlighted ==>
      forall o :: o in Prices(p) ==> v.shopeeSlot.price <= o.price
    ensures v.tiktokSlot.PriceRow? && v.tiktokSlot.highlighted ==>
      forall o :: o in Prices(p) ==> v.tiktokSlot.price <= o.price
    ensures !(v.shopeeSlot.PriceRow? && v.shopeeSlot.highlighted &&
              v.tiktokSlot.PriceRow? && v.tiktokSlot.highlighted)
    ensures (Listed(p, Shopee) || Listed(p, TikTok)) ==>
      (v.shopeeSlot.PriceRow? && v.shopeeSlot.highlighted) ||
      (v.tiktokSlot.PriceRow? && v.tiktokSlot.highlighted)
    ensures v.bestLabel.Some? <==> Listed(p, Shopee) || Listed(p, TikTok)
    ensures v.bestLabel == Some("Shopee") <==> BestDeal(p).Some? && BestDeal(p).value.platform == Shopee
    ensures v.bestLabel == Some("TikTok Shop") <==> BestDeal(p).Some? && BestDeal(p).value.platform == TikTok
  {
    var savings := Savings(p);
    var avg := AvgRating(p);
    var best := BestDeal(p);
    CardView(
      if savings > 0 then Some(savings) else None,
      p.views > 100,
      if avg > 0.0 then Some(avg) else None,
      PriceSlot(p, Shopee),
      PriceSlot(p, TikTok),
      if best.Some? then Some(DisplayName(best.value.platform)) else None)
  }
}
