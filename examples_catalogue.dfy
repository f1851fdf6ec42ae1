/**
  Worked cases checked against the comparison model: two products of the
  storefront's dummy catalogue, and small hand-made products for a single
  offer, a tie and a zero price.
 */
module CatalogueExamples {

  import opened Options
  import opened ProductCard

  /** Powerbank: Shopee 250000, TikTok 245000, ratings 4.8 and 4.9, 1250 views. */
  lemma Powerbank()
    ensures var p := Product(Some(250000), Some(245000), Some(4.8), Some(4.9), 1250);
      && BestDeal(p) == Some(Offer(TikTok, 245000))
      && Savings(p) == 5000
      && AvgRating(p) == 4.85
      && Render(p).savingsBadge == Some(5000)
      && Render(p).trendingBadge
      && Render(p).bestLabel == Some("TikTok Shop")
  {
    var p := Product(Some(250000), Some(245000), Some(4.8), Some(4.9), 1250);
    TwoOffers(p);
    TwoRatings(p);
  }

  /** Earbuds: Shopee 150000 is cheaper than TikTok 155000. */
  lemma Earbuds()
    ensures var p := Product(Some(150000), Some(155000), Some(4.5), Some(4.6), 890);
      && BestDeal(p) == Some(Offer(Shopee, 150000))
      && Savings(p) == 5000
      && AvgRating(p) == 4.55
  {
    var p := Product(Some(150000), Some(155000), Some(4.5), Some(4.6), 890);
    TwoOffers(p);
    TwoRatings(p);
  }

  /** A product listed on Shopee only, at 299000: Shopee is best and nothing is saved. */
  lemma ShopeeOnly()
    ensures var p := Product(Some(299000), None, Some(4.8), None, 40);
      && BestDeal(p) == Some(Offer(Shopee, 299000))
      && Savings(p) == 0
      && AvgRating(p) == 4.8
      && Render(p).savingsBadge == None
      && !Render(p).trendingBadge
  {
    var p := Product(Some(299000), None, Some(4.8), None, 40);
    OneOffer(p, Shopee);
    OneRating(p);
  }

  /** Equal prices: the first entry, Shopee, is kept, and no savings badge shows. */
  lemma Tie()
    ensures var p := Product(Some(100000), Some(100000), None, None, 101);
      && BestDeal(p) == Some(Offer(Shopee, 100000))
      && Render(p).savingsBadge == None
      && Render(p).ratingRow == None
      && AvgRating(p) == 0.0
  {
    var p := Product(Some(100000), Some(100000), None, None, 101);
    TwoOffers(p);
  }

  /** A zero TikTok price is no offer at all: Shopee wins even though 0 is lower. */
  lemma ZeroPrice()
    ensures var p := Product(Some(85000), Some(0), Some(4.3), Some(0.0), 320);
      && BestDeal(p) == Some(Offer(Shopee, 85000))
      && Savings(p) == 0
      && AvgRating(p) == 4.3
  {
    var p := Product(Some(85000), Some(0), Some(4.3), Some(0.0), 320);
    OneOffer(p, Shopee);
    OneRating(p);
  }
}
