/**
  * `score(product) -> ScoredDeal | None`, in exact arithmetic.
  *
  * Scores and percentages that the source rounds to two decimals are integers here, counted
  * in hundredths.
  */
module Scorer {
  import opened Prelude
  import opened PriceHistory
  import opened Rounding

  datatype BrandTier = Premium | Standard | Unbranded

  /** The parts of a `CanonicalProduct` the Deal Engine reads. */
  datatype Product = Product(
    marketplace: Marketplace,
    externalId: string,
    price: int,
    mrp: Option<int>,
    rating: Option<real>,
    reviewCount: Option<int>,
    inStock: bool)

  datatype Weights = Weights(discount: real, velocity: real, brand: real, rating: real)

  datatype Config = Config(
    version: string,
    weights: Weights,
    minDiscountPct: real,
    minScore: real,
    expiryHours: int,
    historyWindowDays: int)

  const DEFAULT_CONFIG: Config :=
    Config("builtin-v1", Weights(0.375, 0.25, 0.1875, 0.1875), 15.0, 40.0, 6, 90)

  const FULL_CREDIT_DISCOUNT_PCT: real := 60.0
  const FULL_CREDIT_REVIEW_COUNT: real := 500.0
  const VELOCITY_ZERO_CREDIT_MARGIN: real := 0.2

  /** Components in hundredths of a point. */
  datatype Breakdown = Breakdown(
    discountScore: int, velocityScore: int, brandScore: int, ratingScore: int, version: string)
  {
    function Total(): int { discountScore + velocityScore + brandScore + ratingScore }
  }

  datatype ScoredDeal = ScoredDeal(
    listing: Uuid,
    marketplace: Marketplace,
    score: int,
    breakdown: Breakdown,
    detectedPrice: int,
    referencePrice: int,
    discountPct: int,
    expiresAt: int)

  function Clamp(x: real): real {
    if x < 0.0 then 0.0 else if x > 1.0 then 1.0 else x
  }

  /** A percentage or a score rounded to two decimals, in hundredths. */
  function Hundredths(x: real): int { HalfEven(x * 100.0) }

  function ReferencePrice(product: Product, stats: Option<PriceStats>): Option<int> {
    if product.mrp.Some? && product.mrp.value > product.price then product.mrp
    else if stats.Some? && stats.value.highestPrice > product.price then Some(stats.value.highestPrice)
    else None
  }

  function DiscountPct(reference: int, price: int): real
    requires reference != 0
  {
    (reference - price) as real / reference as real * 100.0
  }

  function DiscountFactor(discountPct: real): real { Clamp(discountPct / FULL_CREDIT_DISCOUNT_PCT) }

  function VelocityFactor(price: int, stats: Option<PriceStats>): real {
    if stats.None? || stats.value.lowestPrice <= 0 then 0.0
    else if price <= stats.value.lowestPrice then 1.0
    else
      var excess := (price - stats.value.lowestPrice) as real / stats.value.lowestPrice as real;
      Clamp(1.0 - excess / VELOCITY_ZERO_CREDIT_MARGIN)
  }

  function BrandFactor(tier: Option<BrandTier>): real {
    match tier
    case None => 0.2
    case Some(Premium) => 1.0
    case Some(Standard) => 0.6
    case Some(Unbranded) => 0.2
  }

  function RatingFactor(rating: Option<real>, reviewCount: Option<int>): real {
    if rating.None? then 0.0 else Quality(rating.value) * Confidence(reviewCount)
  }

  function Quality(rating: real): real { Clamp((rating - 3.0) / 2.0) }

  function Confidence(reviewCount: Option<int>): real {
    var reviews := if reviewCount.None? then 0 else reviewCount.value;
    Clamp(reviews as real / FULL_CREDIT_REVIEW_COUNT)
  }

  /** One stored component: weight times factor, as points rounded to two decimals. */
  function Component(weight: real, factor: real): int { Hundredths(weight * factor * 100.0) }

  function BreakdownOf(
    product: Product, tier: Option<BrandTier>, stats: Option<PriceStats>, discountPct: real, config: Config)
    : Breakdown
  {
    Breakdown(
      Component(config.weights.discount, DiscountFactor(discountPct)),
      Component(config.weights.velocity, VelocityFactor(product.price, stats)),
      Component(config.weights.brand, BrandFactor(tier)),
      Component(config.weights.rating, RatingFactor(product.rating, product.reviewCount)),
      config.version)
  }

  /** `None` is the source's silent skip; `Raise` its division by a zero reference price. */
  datatype Outcome = Skip | Deal(deal: ScoredDeal) | ZeroDivision

  function Score(
    product: Product, listing: Uuid, tier: Option<BrandTier>, stats: Option<PriceStats>, config: Config, now: int)
    : Outcome
  {
    var reference := ReferencePrice(product, stats);
    if reference.None? || reference.value <= product.price then Skip
    else if reference.value == 0 then ZeroDivision
    else
      var discountPct := DiscountPct(reference.value, product.price);
      if discountPct < config.minDiscountPct then Skip
      else
        var breakdown := BreakdownOf(product, tier, stats, discountPct, config);
        if breakdown.Total() as real / 100.0 < config.minScore then Skip
        else
          Deal(ScoredDeal(
                 listing, product.marketplace,
                 Hundredths(breakdown.Total() as real / 100.0),
                 breakdown, product.price, reference.value,
                 Hundredths(discountPct),
                 now + config.expiryHours * 3600))
  }

  ghost predicate NonNegative(w: Weights) {
    w.discount >= 0.0 && w.velocity >= 0.0 && w.brand >= 0.0 && w.rating >= 0.0
  }

  // ---- Bounds --------------------------------------------------------------------------

  lemma FactorsAreFractions(
    product: Product, tier: Option<BrandTier>, stats: Option<PriceStats>, discountPct: real)
    ensures 0.0 <= DiscountFactor(discountPct) <= 1.0
    ensures 0.0 <= VelocityFactor(product.price, stats) <= 1.0
    ensures 0.0 <= BrandFactor(tier) <= 1.0
    ensures 0.0 <= RatingFactor(product.rating, product.reviewCount) <= 1.0
  {
    if product.rating.Some? {
      ProductOfFractions(Quality(product.rating.value), Confidence(product.reviewCount));
    }
  }

  lemma ProductOfFractions(a: real, b: real)
    requires 0.0 <= a <= 1.0 && 0.0 <= b <= 1.0
    ensures 0.0 <= a * b
    ensures a * b <= 1.0
  {
    var rest := 1.0 - b;
    NonNegativeProduct(a, b);
    NonNegativeProduct(a, rest);
    Distributes(a, b, rest);
    assert a * (b + rest) == a;
  }

  lemma NonNegativeProduct(a: real, b: real)
    requires 0.0 <= a && 0.0 <= b
    ensures 0.0 <= a * b
  {
  }

  lemma Distributes(a: real, b: real, c: real)
    ensures a * (b + c) == a * b + a * c
  {
  }

  lemma ProductMonotone(a: real, b: real, c: real, d: real)
    requires 0.0 <= a <= b && 0.0 <= c <= d
    ensures a * c <= b * d
  {
    MulMonotone(a, c, d);
    MulMonotone(d, a, b);
    assert d * a == a * d && d * b == b * d;
  }

  lemma MulMonotone(w: real, a: real, b: real)
    requires w >= 0.0 && a <= b
    ensures w * a <= w * b
  {
    var gap := b - a;
    NonNegativeProduct(w, gap);
    Distributes(w, a, gap);
    assert a + gap == b;
  }

  predicate Whole(x: real) { x == x.Floor as real }

  lemma ComponentMonotone(weight: real, f: real, g: real)
    requires weight >= 0.0 && f <= g
    ensures Component(weight, f) <= Component(weight, g)
  {
    MulMonotone(weight, f, g);
    var low, high := weight * f, weight * g;
    assert low * 100.0 * 100.0 <= high * 100.0 * 100.0;
    HalfEvenMonotone(low * 100.0 * 100.0, high * 100.0 * 100.0);
  }

  lemma ComponentBound(weight: real, factor: real)
    requires weight >= 0.0 && 0.0 <= factor <= 1.0
    ensures 0 <= Component(weight, factor) <= Hundredths(100.0 * weight)
  {
    ComponentMonotone(weight, 0.0, factor);
    ComponentMonotone(weight, factor, 1.0);
    assert Component(weight, 0.0) == HalfEven(0.0) == 0;
    assert weight * 1.0 * 100.0 * 100.0 == 100.0 * weight * 100.0;
  }

  lemma WeightInHundredths(weight: real)
    ensures Hundredths(100.0 * weight) as real <= weight * 10000.0 + 0.5
    ensures Whole(10000.0 * weight) ==> Hundredths(100.0 * weight) as real == weight * 10000.0
  {
    assert 100.0 * weight * 100.0 == 10000.0 * weight;
  }

  predicate WholeHundredths(w: Weights) {
    && Whole(10000.0 * w.discount)
    && Whole(10000.0 * w.velocity)
    && Whole(10000.0 * w.brand)
    && Whole(10000.0 * w.rating)
  }

  lemma ComponentsInRange(
    product: Product, tier: Option<BrandTier>, stats: Option<PriceStats>, discountPct: real, config: Config)
    requires NonNegative(config.weights)
    ensures InRange(BreakdownOf(product, tier, stats, discountPct, config), config.weights)
  {
    var w := config.weights;
    FactorsAreFractions(product, tier, stats, discountPct);
    ComponentBound(w.discount, DiscountFactor(discountPct));
    ComponentBound(w.velocity, VelocityFactor(product.price, stats));
    ComponentBound(w.brand, BrandFactor(tier));
    ComponentBound(w.rating, RatingFactor(product.rating, product.reviewCount));
  }

  lemma TotalBound(b: Breakdown, w: Weights)
    requires NonNegative(w) && SumToOne(w) && InRange(b, w)
    ensures b.Total() <= 10002
    ensures WholeHundredths(w) ==> b.Total() <= 10000
  {
    WeightInHundredths(w.discount);
    WeightInHundredths(w.velocity);
    WeightInHundredths(w.brand);
    WeightInHundredths(w.rating);
  }

  lemma TotalIsExact(total: int)
    ensures Hundredths(total as real / 100.0) == total
  {
    assert total as real / 100.0 * 100.0 == total as real;
    HalfEvenIsNearest(total as real, total);
  }

  predicate SumToOne(w: Weights) { w.discount + w.velocity + w.brand + w.rating == 1.0 }

  /** Each component lies in its own weighted range. */
  predicate InRange(b: Breakdown, w: Weights) {
    && 0 <= b.discountScore <= Hundredths(100.0 * w.discount)
    && 0 <= b.velocityScore <= Hundredths(100.0 * w.velocity)
    && 0 <= b.brandScore <= Hundredths(100.0 * w.brand)
    && 0 <= b.ratingScore <= Hundredths(100.0 * w.rating)
  }

  /** What a listing perfect in every respect scores. */
  function MaxTotal(w: Weights): int {
    Hundredths(100.0 * w.discount) + Hundredths(100.0 * w.velocity)
      + Hundredths(100.0 * w.brand) + Hundredths(100.0 * w.rating)
  }

  /**
    * Every deal: components within their weighted range, a score that is exactly their sum
    * and at most that of a perfect listing, a price below the reference and a discount of at
    * least the minimum.  With weights that sum to one the score is at most 100.02, and at most
    * 100 when each weight is a whole number of hundredths of a percent.
    */
  lemma DealBounds(
    product: Product, listing: Uuid, tier: Option<BrandTier>, stats: Option<PriceStats>, config: Config, now: int)
    requires product.price > 0
    requires NonNegative(config.weights)
    ensures var r := Score(product, listing, tier, stats, config, now);
            && !r.ZeroDivision?
            && (r.Deal? ==>
                var d := r.deal; var w := config.weights;
                && InRange(d.breakdown, w)
                && d.score == d.breakdown.Total() <= MaxTotal(w)
                && config.minScore * 100.0 <= d.score as real
                && (SumToOne(w) ==> d.score <= 10002)
                && (SumToOne(w) && WholeHundredths(w) ==> d.score <= 10000)
                && 0 < d.detectedPrice == product.price < d.referencePrice
                && DiscountPct(d.referencePrice, d.detectedPrice) >= config.minDiscountPct)
  {
    var r := Score(product, listing, tier, stats, config, now);
    if r.Deal? {
      ComponentsInRange(product, tier, stats, DiscountPct(r.deal.referencePrice, product.price), config);
      if SumToOne(config.weights) {
        TotalBound(r.deal.breakdown, config.weights);
      }
      TotalIsExact(r.deal.breakdown.Total());
    }
  }

  lemma DefaultWeightsAreWhole()
    ensures NonNegative(DEFAULT_CONFIG.weights) && WholeHundredths(DEFAULT_CONFIG.weights)
    ensures SumToOne(DEFAULT_CONFIG.weights)
  {
    assert 10000.0 * 0.375 == 3750.0 && 10000.0 * 0.25 == 2500.0 && 10000.0 * 0.1875 == 1875.0;
  }

  /** A perfect listing at a hundredth part of its list price or less, as `mrp` has it. */
  function Perfect(mrp: int): Product { Product(Amazon, "A", 1, Some(mrp), Some(5.0), Some(500), true) }

  const PERFECT_STATS: Option<PriceStats> := Some(PriceStats(1, 1))

  function PerfectScore(mrp: int, config: Config): Outcome {
    Score(Perfect(mrp), 0, Some(Premium), PERFECT_STATS, config, 0)
  }

  lemma FullComponent(weight: real)
    ensures Component(weight, 1.0) == Hundredths(100.0 * weight)
  {
    assert weight * 1.0 * 100.0 == 100.0 * weight;
  }

  lemma PerfectBreakdown(mrp: int, pct: real, config: Config)
    requires pct >= 60.0
    ensures BreakdownOf(Perfect(mrp), Some(Premium), PERFECT_STATS, pct, config).Total() == MaxTotal(config.weights)
  {
    DiscountCredit(pct);
    RatingCredit(Some(5.0), Some(500));
    FullComponent(config.weights.discount);
    FullComponent(config.weights.velocity);
    FullComponent(config.weights.brand);
    FullComponent(config.weights.rating);
  }

  lemma DeepDiscount(mrp: int, pct: real)
    requires pct < 100.0 && mrp as real * (100.0 - pct) >= 100.0 && mrp > 0
    ensures DiscountPct(mrp, 1) >= pct
  {
    var r := mrp as real;
    assert DiscountPct(mrp, 1) == (r - 1.0) / r * 100.0;
    assert (r - 1.0) / r * r == r - 1.0;
    RatioAtLeast(r - 1.0, r, pct / 100.0);
    assert pct / 100.0 * r <= r - 1.0;
  }

  lemma ScaledCompare(x: real, y: real, k: real)
    requires k > 0.0
    ensures x <= y <==> x * k <= y * k
  {
    assert k * x == x * k && k * y == y * k;
    if x <= y {
      MulMonotone(k, x, y);
    } else {
      StrictMonotone(k, y, x);
    }
  }

  lemma RatioAtLeast(a: real, b: real, x: real)
    requires b > 0.0
    ensures a / b >= x <==> a >= x * b
  {
    ScaledCompare(x, a / b, b);
    assert a / b * b == a;
  }

  lemma StrictMonotone(w: real, a: real, b: real)
    requires w > 0.0 && a < b
    ensures w * a < w * b
  {
    var gap := b - a;
    assert w * gap > 0.0;
    Distributes(w, a, gap);
    assert a + gap == b;
  }

  /** Under any thresholds a deal can meet, a perfect listing scores the sum of the full components. */
  lemma PerfectListing(config: Config) returns (mrp: int)
    requires config.minDiscountPct < 100.0 && config.minScore <= MaxTotal(config.weights) as real / 100.0
    ensures PerfectScore(mrp, config).Deal? && PerfectScore(mrp, config).deal.score == MaxTotal(config.weights)
  {
    var pct := if config.minDiscountPct < 60.0 then 60.0 else config.minDiscountPct;
    var room := 100.0 - pct;
    mrp := (100.0 / room).Floor + 1;
    assert mrp > 1 by {
      RatioAtLeast(100.0, room, 1.0);
    }
    assert mrp as real * room >= 100.0 by {
      MulMonotone(room, 100.0 / room, mrp as real);
      assert 100.0 / room * room == 100.0;
    }
    DeepDiscount(mrp, pct);
    PerfectBreakdown(mrp, DiscountPct(mrp, 1), config);
    TotalIsExact(MaxTotal(config.weights));
  }

  /** No deal scores above 100, the maximum the DEAL_SCORED schema admits. */
  ghost predicate WithinHundred(config: Config) {
    forall product: Product, listing, tier, stats, now ::
      var r := Score(product, listing, tier, stats, config, now);
      product.price > 0 && r.Deal? ==> r.deal.score <= 10000
  }

  /**
    * Exactly when no deal scores above 100: when the full components do not sum to more, or
    * the thresholds keep the listings that reach the sum from being deals at all.
    */
  lemma WithinHundredExactly(config: Config)
    requires NonNegative(config.weights)
    ensures WithinHundred(config) <==>
            || MaxTotal(config.weights) <= 10000
            || config.minDiscountPct >= 100.0
            || config.minScore > MaxTotal(config.weights) as real / 100.0
  {
    forall product: Product, listing, tier, stats, now |
      product.price > 0 && Score(product, listing, tier, stats, config, now).Deal?
      ensures var d := Score(product, listing, tier, stats, config, now).deal;
              && d.score <= MaxTotal(config.weights) && config.minDiscountPct < 100.0
              && config.minScore <= MaxTotal(config.weights) as real / 100.0
    {
      DealBounds(product, listing, tier, stats, config, now);
      var d := Score(product, listing, tier, stats, config, now).deal;
      BelowWhole(d.referencePrice, product.price);
    }
    if config.minDiscountPct < 100.0 && config.minScore <= MaxTotal(config.weights) as real / 100.0 {
      var mrp := PerfectListing(config);
      assert Score(Perfect(mrp), 0, Some(Premium), PERFECT_STATS, config, 0) == PerfectScore(mrp, config);
    }
  }

  /** Under such a config every deal's score is one DEAL_SCORED admits. */
  lemma ScoreFitsSchema(
    product: Product, listing: Uuid, tier: Option<BrandTier>, stats: Option<PriceStats>, config: Config, now: int)
    requires product.price > 0 && NonNegative(config.weights) && WithinHundred(config)
    ensures var r := Score(product, listing, tier, stats, config, now);
            r.Deal? ==> 0 <= r.deal.score <= 10000
  {
    DealBounds(product, listing, tier, stats, config, now);
  }

  lemma BelowWhole(reference: int, price: int)
    requires 0 < price < reference
    ensures DiscountPct(reference, price) < 100.0
  {
    RatioAtLeast((reference - price) as real, reference as real, 1.0);
  }

  /**
    * Weights that sum to one but are not whole hundredths can round a perfect listing past
    * 100 under the built-in thresholds.
    */
  lemma RoundingCanPassOneHundred()
    ensures var config := DEFAULT_CONFIG.(weights := Weights(0.25006, 0.25006, 0.25006, 0.24982));
            && NonNegative(config.weights) && SumToOne(config.weights)
            && MaxTotal(config.weights) == 10001 && !WithinHundred(config)
  {
    var config := DEFAULT_CONFIG.(weights := Weights(0.25006, 0.25006, 0.25006, 0.24982));
    assert Hundredths(100.0 * 0.25006) == HalfEven(2500.6) == 2501;
    assert Hundredths(100.0 * 0.24982) == HalfEven(2498.2) == 2498;
    WithinHundredExactly(config);
  }

  // ---- Monotonicity --------------------------------------------------------------------

  function TierRank(tier: Option<BrandTier>): nat {
    match tier
    case None => 0
    case Some(Unbranded) => 0
    case Some(Standard) => 1
    case Some(Premium) => 2
  }

  /** `better` is at least as good a bargain as `worse` in every input but the reference. */
  ghost predicate AtLeastAsGood(worse: Product, better: Product) {
    && better.price <= worse.price
    && (worse.rating.Some? ==> better.rating.Some? && worse.rating.value <= better.rating.value)
    && NoFewerReviews(worse.reviewCount, better.reviewCount)
  }

  ghost predicate NoFewerReviews(worse: Option<int>, better: Option<int>) {
    worse.Some? && worse.value > 0 ==> better.Some? && worse.value <= better.value
  }

  lemma ConfidenceMonotone(worse: Option<int>, better: Option<int>)
    requires NoFewerReviews(worse, better)
    ensures Confidence(worse) <= Confidence(better)
  {
  }

  lemma DivMonotone(a: real, b: real, c: real)
    requires c > 0.0
    ensures a <= b ==> a / c <= b / c
  {
    if a <= b {
      MulMonotone(1.0 / c, a, b);
      assert a / c == 1.0 / c * a && b / c == 1.0 / c * b;
    }
  }

  lemma VelocityMonotone(worse: int, better: int, stats: Option<PriceStats>)
    requires better <= worse
    ensures VelocityFactor(worse, stats) <= VelocityFactor(better, stats)
  {
    if stats.Some? && stats.value.lowestPrice > 0 && better > stats.value.lowestPrice {
      var low := stats.value.lowestPrice;
      DivMonotone((better - low) as real, (worse - low) as real, low as real);
    }
  }

  lemma RatingMonotone(worse: Product, better: Product)
    requires AtLeastAsGood(worse, better)
    ensures RatingFactor(worse.rating, worse.reviewCount) <= RatingFactor(better.rating, better.reviewCount)
  {
    if worse.rating.Some? {
      ConfidenceMonotone(worse.reviewCount, better.reviewCount);
      ProductMonotone(
        Quality(worse.rating.value), Quality(better.rating.value),
        Confidence(worse.reviewCount), Confidence(better.reviewCount));
    } else if better.rating.Some? {
      ProductOfFractions(Quality(better.rating.value), Confidence(better.reviewCount));
    }
  }

  lemma CrossDivide(a: real, b: real, c: real, d: real)
    requires b > 0.0 && d > 0.0
    ensures a / b <= c / d <==> a * d <= c * b
  {
    var x, y, bd := a / b, c / d, b * d;
    assert bd > 0.0;
    ScaledCompare(x, y, bd);
    assert x * bd == a * d by {
      assert x * b == a;
      assert x * (b * d) == x * b * d;
    }
    assert y * bd == c * b by {
      assert y * d == c;
      assert y * (b * d) == y * d * b;
    }
  }

  /** The discount is at least as deep exactly when the price is no larger a part of its reference. */
  lemma DeeperDiscount(reference: int, price: int, reference': int, price': int)
    requires 0 < reference && 0 < reference'
    ensures DiscountPct(reference, price) <= DiscountPct(reference', price') <==>
            price' * reference <= price * reference'
  {
    var r, p, r', p' := reference as real, price as real, reference' as real, price' as real;
    CrossDivide(r - p, r, r' - p', r');
    assert (r - p) * r' == r * r' - p * r';
    assert (r' - p') * r == r * r' - p' * r;
    assert p * r' == (price * reference') as real && p' * r == (price' * reference) as real;
  }

  /** If `worse` has a reference, so has `better`, and its price is no larger a part of it. */
  predicate NoShallower(worse: Product, better: Product, stats: Option<PriceStats>) {
    var before, after := ReferencePrice(worse, stats), ReferencePrice(better, stats);
    before.Some? ==> after.Some? && better.price * before.value <= worse.price * after.value
  }

  lemma DiscountFactorMonotone(p: real, q: real)
    requires p <= q
    ensures DiscountFactor(p) <= DiscountFactor(q)
  {
    DivMonotone(p, q, FULL_CREDIT_DISCOUNT_PCT);
  }

  /**
    * An improvement with the same history never loses a deal nor lowers its score, as long as
    * the price does not become a larger part of its reference.
    */
  lemma ScoreMonotone(
    worse: Product, better: Product, listing: Uuid,
    worseTier: Option<BrandTier>, betterTier: Option<BrandTier>,
    stats: Option<PriceStats>, config: Config, now: int)
    requires better.price > 0
    requires AtLeastAsGood(worse, better) && TierRank(worseTier) <= TierRank(betterTier)
    requires NoShallower(worse, better, stats)
    requires NonNegative(config.weights)
    requires Score(worse, listing, worseTier, stats, config, now).Deal?
    ensures var before := Score(worse, listing, worseTier, stats, config, now).deal;
            var after := Score(better, listing, betterTier, stats, config, now);
            && after.Deal?
            && before.score <= after.deal.score
            && before.discountPct <= after.deal.discountPct
            && before.breakdown.discountScore <= after.deal.breakdown.discountScore
            && before.breakdown.velocityScore <= after.deal.breakdown.velocityScore
            && before.breakdown.brandScore <= after.deal.breakdown.brandScore
            && before.breakdown.ratingScore <= after.deal.breakdown.ratingScore
  {
    var before, after := ReferencePrice(worse, stats).value, ReferencePrice(better, stats).value;
    var p, q := DiscountPct(before, worse.price), DiscountPct(after, better.price);
    var w := config.weights;
    DeeperDiscount(before, worse.price, after, better.price);
    DiscountFactorMonotone(p, q);
    VelocityMonotone(worse.price, better.price, stats);
    RatingMonotone(worse, better);
    ComponentMonotone(w.discount, DiscountFactor(p), DiscountFactor(q));
    ComponentMonotone(w.velocity, VelocityFactor(worse.price, stats), VelocityFactor(better.price, stats));
    ComponentMonotone(w.brand, BrandFactor(worseTier), BrandFactor(betterTier));
    ComponentMonotone(
      w.rating, RatingFactor(worse.rating, worse.reviewCount), RatingFactor(better.rating, better.reviewCount));
    TotalIsExact(BreakdownOf(worse, worseTier, stats, p, config).Total());
    TotalIsExact(BreakdownOf(better, betterTier, stats, q, config).Total());
    HalfEvenMonotone(p * 100.0, q * 100.0);
  }

  /** Under every config in which `worse` is a deal, `better` is one that scores no less. */
  ghost predicate NeverLoses(
    worse: Product, better: Product, listing: Uuid,
    worseTier: Option<BrandTier>, betterTier: Option<BrandTier>, stats: Option<PriceStats>, now: int)
  {
    forall config: Config ::
      var before := Score(worse, listing, worseTier, stats, config, now);
      var after := Score(better, listing, betterTier, stats, config, now);
      NonNegative(config.weights) && before.Deal? ==> after.Deal? && before.deal.score <= after.deal.score
  }

  /** A config that asks for exactly the discount `pct` and nothing else. */
  function DiscountOnly(pct: real): Config { Config("", Weights(0.0, 0.0, 0.0, 0.0), pct, 0.0, 0, 0) }

  lemma NoWeight(factor: real)
    ensures Component(0.0, factor) == 0
  {
    assert 0.0 * factor == 0.0;
  }

  lemma NothingScored(product: Product, tier: Option<BrandTier>, stats: Option<PriceStats>, pct: real, found: real)
    ensures BreakdownOf(product, tier, stats, found, DiscountOnly(pct)).Total() == 0
  {
    NoWeight(DiscountFactor(found));
    NoWeight(VelocityFactor(product.price, stats));
    NoWeight(BrandFactor(tier));
    NoWeight(RatingFactor(product.rating, product.reviewCount));
  }

  /** Whether a listing with a reference is a deal, given what its components add up to. */
  lemma DealIf(
    product: Product, listing: Uuid, tier: Option<BrandTier>, stats: Option<PriceStats>, config: Config, now: int,
    found: real, total: int)
    requires product.price > 0 && ReferencePrice(product, stats).Some?
    requires found == DiscountPct(ReferencePrice(product, stats).value, product.price)
    requires total == BreakdownOf(product, tier, stats, found, config).Total()
    ensures Score(product, listing, tier, stats, config, now).Deal? <==>
            found >= config.minDiscountPct && total as real / 100.0 >= config.minScore
  {
  }

  lemma DiscountOnlyAccepts(
    product: Product, listing: Uuid, tier: Option<BrandTier>, stats: Option<PriceStats>, pct: real, now: int)
    requires product.price > 0 && ReferencePrice(product, stats).Some?
    ensures Score(product, listing, tier, stats, DiscountOnly(pct), now).Deal? <==>
            DiscountPct(ReferencePrice(product, stats).value, product.price) >= pct
  {
    var found := DiscountPct(ReferencePrice(product, stats).value, product.price);
    NothingScored(product, tier, stats, pct, found);
    DealIf(product, listing, tier, stats, DiscountOnly(pct), now, found, 0);
  }

  /** Exactly when an improvement is one under every config, whatever happens to the reference. */
  lemma MonotoneExactly(
    worse: Product, better: Product, listing: Uuid,
    worseTier: Option<BrandTier>, betterTier: Option<BrandTier>, stats: Option<PriceStats>, now: int)
    requires better.price > 0
    requires AtLeastAsGood(worse, better) && TierRank(worseTier) <= TierRank(betterTier)
    ensures NeverLoses(worse, better, listing, worseTier, betterTier, stats, now) <==> NoShallower(worse, better, stats)
  {
    if NoShallower(worse, better, stats) {
      forall config: Config | NonNegative(config.weights) && Score(worse, listing, worseTier, stats, config, now).Deal?
        ensures Score(better, listing, betterTier, stats, config, now).Deal?
        ensures Score(worse, listing, worseTier, stats, config, now).deal.score
             <= Score(better, listing, betterTier, stats, config, now).deal.score
      {
        ScoreMonotone(worse, better, listing, worseTier, betterTier, stats, config, now);
      }
    } else {
      var before, after := ReferencePrice(worse, stats), ReferencePrice(better, stats);
      var pct := DiscountPct(before.value, worse.price);
      DiscountOnlyAccepts(worse, listing, worseTier, stats, pct, now);
      if after.Some? {
        DeeperDiscount(before.value, worse.price, after.value, better.price);
        DiscountOnlyAccepts(better, listing, betterTier, stats, pct, now);
      }
      assert !Score(better, listing, betterTier, stats, DiscountOnly(pct), now).Deal?;
    }
  }

  /** Lowering the price can lose the deal when the reference itself moves: MRP replaces history. */
  lemma ReferenceSwitchBreaksMonotonicity()
    ensures exists worse: Product, better: Product, stats: Option<PriceStats> ::
              && 0 < better.price && AtLeastAsGood(worse, better)
              && Score(worse, 0, None, stats, DEFAULT_CONFIG, 0).Deal?
              && Score(better, 0, None, stats, DEFAULT_CONFIG, 0).Skip?
  {
    var worse := Product(Amazon, "A", 1000, Some(1000), Some(5.0), Some(500), true);
    var better := worse.(price := 999);
    var stats := Some(PriceStats(1000, 4000));
    calc {
      DiscountPct(4000, 1000);
      3000.0 / 4000.0 * 100.0;
      75.0;
    }
    assert Score(worse, 0, None, stats, DEFAULT_CONFIG, 0).Deal?;
    assert DiscountPct(1000, 999) == 1.0 / 1000.0 * 100.0;
    assert Score(better, 0, None, stats, DEFAULT_CONFIG, 0).Skip?;
  }

  lemma FullVelocity(price: int, stats: PriceStats)
    requires stats.lowestPrice > 0
    ensures VelocityFactor(price, Some(stats)) == 1.0 <==> price <= stats.lowestPrice
  {
    if price > stats.lowestPrice {
      var low := stats.lowestPrice as real;
      var excess := (price - stats.lowestPrice) as real / low;
      assert excess * low == (price - stats.lowestPrice) as real;
      assert excess > 0.0;
    }
  }

  /** Where each curve starts and where it saturates. */
  lemma DiscountCredit(discountPct: real)
    ensures DiscountFactor(discountPct) == 0.0 <==> discountPct <= 0.0
    ensures DiscountFactor(discountPct) == 1.0 <==> discountPct >= 60.0
  {
    assert discountPct / FULL_CREDIT_DISCOUNT_PCT * 60.0 == discountPct;
  }

  lemma RatioAtLeastFifth(above: real, low: real)
    requires low > 0.0
    ensures above / low >= 0.2 <==> 5.0 * above >= low
  {
    DivMonotone(0.2 * low, above, low);
    DivMonotone(above, 0.2 * low, low);
    assert 0.2 * low / low == 0.2;
    if above / low >= 0.2 {
      MulMonotone(low, 0.2, above / low);
      assert low * (above / low) == above;
    }
  }

  /** No velocity credit from a fifth above the window's lowest price on. */
  lemma VelocityCredit(price: int, stats: PriceStats)
    requires stats.lowestPrice > 0
    ensures VelocityFactor(price, Some(stats)) == 0.0 <==> 5 * price >= 6 * stats.lowestPrice
  {
    var low, above := stats.lowestPrice as real, (price - stats.lowestPrice) as real;
    RatioAtLeastFifth(above, low);
    assert 5.0 * above == (5 * (price - stats.lowestPrice)) as real;
  }

  lemma RatingCredit(rating: Option<real>, reviewCount: Option<int>)
    ensures RatingFactor(rating, reviewCount) == 1.0 <==>
            rating.Some? && rating.value >= 5.0 && reviewCount.Some? && reviewCount.value >= 500
    ensures RatingFactor(rating, reviewCount) == 0.0 <==>
            rating.None? || rating.value <= 3.0 || reviewCount.None? || reviewCount.value <= 0
  {
    if rating.Some? {
      var q, c := Quality(rating.value), Confidence(reviewCount);
      assert 0.0 <= q <= 1.0 && 0.0 <= c <= 1.0;
      if q < 1.0 && c > 0.0 {
        assert c * (1.0 - q) > 0.0;
      }
      if c < 1.0 && q > 0.0 {
        assert q * (1.0 - c) > 0.0;
      }
    }
  }

  // ---- The four curves, exactly --------------------------------------------------------

  function Min(x: real, y: real): real { if x <= y then x else y }

  function Max(x: real, y: real): real { if x <= y then y else x }

  /** The part of `3 * reference` a discount earns: five thirds of its share, at most all. */
  function DiscountPart(reference: int, price: int): real {
    Min((5 * (reference - price)) as real, (3 * reference) as real)
  }

  /** Proportional to the discount up to 60%, flat from there on. */
  lemma DiscountCurve(reference: int, price: int)
    requires 0 < price < reference
    ensures DiscountFactor(DiscountPct(reference, price)) * (3 * reference) as real == DiscountPart(reference, price)
  {
    var r, off := reference as real, (reference - price) as real;
    var share := off / r;
    assert share * r == off;
    assert DiscountPct(reference, price) / FULL_CREDIT_DISCOUNT_PCT == share * 100.0 / 60.0 == share * 5.0 / 3.0;
    assert share * 5.0 / 3.0 * (3.0 * r) == 5.0 * off;
    RatioAtLeast(5.0 * off, 3.0 * r, 1.0);
    CancelThrees(off, r);
  }

  lemma CancelThrees(off: real, r: real)
    requires r > 0.0
    ensures 5.0 * off / (3.0 * r) == off / r * 5.0 / 3.0
  {
    var share := off / r;
    assert share * r == off;
    assert share * 5.0 / 3.0 * (3.0 * r) == 5.0 * off;
    assert 5.0 * off / (3.0 * r) * (3.0 * r) == 5.0 * off;
    SameQuotient(5.0 * off / (3.0 * r), share * 5.0 / 3.0, 3.0 * r);
  }

  lemma SameQuotient(x: real, y: real, d: real)
    requires d > 0.0 && x * d == y * d
    ensures x == y
  {
    ScaledCompare(x, y, d);
    ScaledCompare(y, x, d);
  }

  /** The part of the window's low a price earns: all of it less five times the excess, at least nothing. */
  function VelocityPart(price: int, low: int): real { Max(0.0, Min(low as real, (6 * low - 5 * price) as real)) }

  /** Full at the window's low, down in proportion to the excess over it, nothing from a fifth above on. */
  lemma VelocityCurve(price: int, stats: PriceStats)
    requires stats.lowestPrice > 0
    ensures VelocityFactor(price, Some(stats)) * stats.lowestPrice as real == VelocityPart(price, stats.lowestPrice)
  {
    if price > stats.lowestPrice {
      var low, above := stats.lowestPrice as real, (price - stats.lowestPrice) as real;
      var excess := above / low;
      assert excess * low == above;
      assert excess > 0.0 by {
        FullVelocity(price, stats);
      }
      assert (1.0 - excess / VELOCITY_ZERO_CREDIT_MARGIN) * low == low - 5.0 * above;
      RatioAtLeastFifth(above, low);
    }
  }

  // Points of the rating above 3.0, two at most, and reviews, 500 at most.

  function RatedPoints(rating: Option<real>): real {
    if rating.None? then 0.0 else Max(0.0, Min(2.0, rating.value - 3.0))
  }

  function CountedReviews(reviewCount: Option<int>): real {
    if reviewCount.None? then 0.0 else Max(0.0, Min(500.0, reviewCount.value as real))
  }

  /** The points above 3.0 times the reviews, of the most there can be. */
  lemma RatingCurve(rating: Option<real>, reviewCount: Option<int>)
    ensures RatingFactor(rating, reviewCount) * 1000.0 == RatedPoints(rating) * CountedReviews(reviewCount)
  {
    if rating.Some? {
      var q, c := Quality(rating.value), Confidence(reviewCount);
      assert q * 2.0 == RatedPoints(rating);
      assert c * 500.0 == CountedReviews(reviewCount);
      assert q * c * 1000.0 == (q * 2.0) * (c * 500.0);
    }
  }

  /** An unresolved brand counts as unbranded. */
  lemma BrandCredit(tier: Option<BrandTier>)
    ensures BrandFactor(tier) * 5.0 == match tier
                                       case Some(Premium) => 5.0
                                       case Some(Standard) => 3.0
                                       case _ => 1.0
  {
  }

  /** `n` is the quotient rounded to an integer: nearer than half a unit, or even and just as near. */
  predicate Rounds(n: int, num: real, den: real) {
    var off := 2.0 * (n as real * den - num);
    -den < off < den || (n % 2 == 0 && (off == den || off == -den))
  }

  lemma RoundsScaled(n: int, x: real, den: real)
    requires den > 0.0 && Rounds(n, x * den, den)
    ensures Rounds(n, x, 1.0)
  {
    var off := 2.0 * (n as real - x);
    assert 2.0 * (n as real * den - x * den) == off * den;
    BothWays(off, den);
  }

  lemma BothWays(off: real, den: real)
    requires den > 0.0
    ensures -1.0 < off < 1.0 <==> -den < off * den < den
    ensures off == 1.0 <==> off * den == den
    ensures off == -1.0 <==> off * den == -den
  {
    ScaledCompare(off, 1.0, den);
    ScaledCompare(1.0, off, den);
    ScaledCompare(off, -1.0, den);
    ScaledCompare(-1.0, off, den);
  }

  lemma HalfEvenRounds(x: real, num: real, den: real)
    requires den > 0.0 && x * den == num
    ensures Rounds(HalfEven(x), num, den)
  {
    var n := HalfEven(x);
    var off := 2.0 * (n as real - x);
    HalfEvenMeaning(x, n);
    assert -1.0 < off < 1.0 || (n % 2 == 0 && (off == 1.0 || off == -1.0));
    assert off * den == 2.0 * (n as real * den - num);
    BothWays(off, den);
  }

  lemma ComponentRounds(weight: real, factor: real, num: real, den: real)
    requires den > 0.0 && factor * den == num
    ensures Rounds(Component(weight, factor), 10000.0 * weight * num, den)
  {
    var x := weight * factor * 100.0 * 100.0;
    assert x * den == 10000.0 * weight * (factor * den) by {
      assert x == 10000.0 * weight * factor;
      assert 10000.0 * weight * factor * den == 10000.0 * weight * (factor * den);
    }
    HalfEvenRounds(x, 10000.0 * weight * num, den);
  }

  // Points of the weight in proportion to the curve, to two decimals.

  predicate DiscountPoints(n: int, weight: real, reference: int, price: int) {
    Rounds(n, 10000.0 * weight * DiscountPart(reference, price), (3 * reference) as real)
  }

  predicate VelocityPoints(n: int, weight: real, price: int, stats: Option<PriceStats>) {
    if stats.None? || stats.value.lowestPrice <= 0 then n == 0
    else
      var low := stats.value.lowestPrice;
      Rounds(n, 10000.0 * weight * VelocityPart(price, low), low as real)
  }

  predicate BrandPoints(n: int, weight: real, tier: Option<BrandTier>) {
    var fifths := match tier case Some(Premium) => 5.0 case Some(Standard) => 3.0 case _ => 1.0;
    Rounds(n, 10000.0 * weight * fifths, 5.0)
  }

  predicate RatingPoints(n: int, weight: real, rating: Option<real>, reviewCount: Option<int>) {
    Rounds(n, 10000.0 * weight * (RatedPoints(rating) * CountedReviews(reviewCount)), 1000.0)
  }

  /** Every component of a stored breakdown, in the numbers it comes from. */
  predicate Credits(
    b: Breakdown, w: Weights, reference: int, product: Product, tier: Option<BrandTier>, stats: Option<PriceStats>)
  {
    && DiscountPoints(b.discountScore, w.discount, reference, product.price)
    && VelocityPoints(b.velocityScore, w.velocity, product.price, stats)
    && BrandPoints(b.brandScore, w.brand, tier)
    && RatingPoints(b.ratingScore, w.rating, product.rating, product.reviewCount)
  }

  lemma DiscountComponent(weight: real, reference: int, price: int)
    requires 0 < price < reference
    ensures DiscountPoints(Component(weight, DiscountFactor(DiscountPct(reference, price))), weight, reference, price)
  {
    DiscountCurve(reference, price);
    DiscountRoundsTo(weight, DiscountFactor(DiscountPct(reference, price)), reference, price);
  }

  lemma DiscountRoundsTo(weight: real, factor: real, reference: int, price: int)
    requires reference > 0 && factor * (3 * reference) as real == DiscountPart(reference, price)
    ensures DiscountPoints(Component(weight, factor), weight, reference, price)
  {
    PartRounds(weight, factor, DiscountPart(reference, price), 3 * reference);
  }

  lemma PartRounds(weight: real, factor: real, part: real, whole: int)
    requires whole > 0 && factor * whole as real == part
    ensures Rounds(Component(weight, factor), 10000.0 * weight * part, whole as real)
  {
    ComponentRounds(weight, factor, part, whole as real);
  }

  lemma VelocityComponent(weight: real, price: int, stats: Option<PriceStats>)
    ensures VelocityPoints(Component(weight, VelocityFactor(price, stats)), weight, price, stats)
  {
    if stats.Some? && stats.value.lowestPrice > 0 {
      VelocityCurve(price, stats.value);
      VelocityRoundsTo(weight, VelocityFactor(price, stats), price, stats.value);
    } else {
      assert weight * 0.0 * 100.0 * 100.0 == 0.0;
    }
  }

  lemma VelocityRoundsTo(weight: real, factor: real, price: int, stats: PriceStats)
    requires stats.lowestPrice > 0
    requires factor * stats.lowestPrice as real == VelocityPart(price, stats.lowestPrice)
    ensures VelocityPoints(Component(weight, factor), weight, price, Some(stats))
  {
    PartRounds(weight, factor, VelocityPart(price, stats.lowestPrice), stats.lowestPrice);
  }

  lemma BrandComponent(weight: real, tier: Option<BrandTier>)
    ensures BrandPoints(Component(weight, BrandFactor(tier)), weight, tier)
  {
    BrandCredit(tier);
    ComponentRounds(weight, BrandFactor(tier), BrandFactor(tier) * 5.0, 5.0);
  }

  lemma RatingComponent(weight: real, rating: Option<real>, reviewCount: Option<int>)
    ensures RatingPoints(Component(weight, RatingFactor(rating, reviewCount)), weight, rating, reviewCount)
  {
    RatingCurve(rating, reviewCount);
    RatingRounds(weight, RatingFactor(rating, reviewCount), RatedPoints(rating), CountedReviews(reviewCount));
  }

  lemma RatingRounds(weight: real, factor: real, points: real, reviews: real)
    requires factor * 1000.0 == points * reviews
    ensures Rounds(Component(weight, factor), 10000.0 * weight * (points * reviews), 1000.0)
  {
    ComponentRounds(weight, factor, points * reviews, 1000.0);
  }

  lemma BreakdownCredits(
    product: Product, tier: Option<BrandTier>, stats: Option<PriceStats>, reference: int, config: Config)
    requires 0 < product.price < reference
    ensures Credits(BreakdownOf(product, tier, stats, DiscountPct(reference, product.price), config),
                    config.weights, reference, product, tier, stats)
  {
    var w := config.weights;
    DiscountComponent(w.discount, reference, product.price);
    VelocityComponent(w.velocity, product.price, stats);
    BrandComponent(w.brand, tier);
    RatingComponent(w.rating, product.rating, product.reviewCount);
  }

  /** What a listing is compared with: the MRP if it beats the price, else the window's highest if that does. */
  predicate Compares(product: Product, stats: Option<PriceStats>, reference: int) {
    && reference > product.price
    && if product.mrp.Some? && product.mrp.value > product.price then product.mrp == Some(reference)
       else stats.Some? && stats.value.highestPrice == reference
  }

  /** What the scorer stores about a deal it found, besides the components. */
  predicate Stored(
    d: ScoredDeal, product: Product, listing: Uuid, stats: Option<PriceStats>, config: Config, now: int)
  {
    && Compares(product, stats, d.referencePrice)
    && d.breakdown.version == config.version && d.score == d.breakdown.Total()
    && d.listing == listing && d.marketplace == product.marketplace && d.detectedPrice == product.price
    && Rounds(d.discountPct, 10000.0 * (d.referencePrice - product.price) as real, d.referencePrice as real)
    && d.expiresAt == now + 3600 * config.expiryHours
  }

  /** The two thresholds, without a division. */
  predicate Clears(reference: int, price: int, total: int, config: Config) {
    && 100.0 * (reference - price) as real >= config.minDiscountPct * reference as real
    && total as real >= 100.0 * config.minScore
  }

  lemma ComparesMeaning(product: Product, stats: Option<PriceStats>, reference: int)
    ensures Compares(product, stats, reference) <==> ReferencePrice(product, stats) == Some(reference)
  {
  }

  lemma DealStores(
    product: Product, listing: Uuid, tier: Option<BrandTier>, stats: Option<PriceStats>, config: Config, now: int,
    reference: int, pct: real, b: Breakdown)
    requires product.price > 0 && Score(product, listing, tier, stats, config, now).Deal?
    requires ReferencePrice(product, stats) == Some(reference) && pct == DiscountPct(reference, product.price)
    requires b == BreakdownOf(product, tier, stats, pct, config)
    ensures Score(product, listing, tier, stats, config, now).deal
         == ScoredDeal(listing, product.marketplace, Hundredths(b.Total() as real / 100.0), b, product.price, reference,
                       Hundredths(pct), now + config.expiryHours * 3600)
    ensures pct >= config.minDiscountPct && b.Total() as real / 100.0 >= config.minScore
  {
  }

  lemma DealCredits(
    product: Product, listing: Uuid, tier: Option<BrandTier>, stats: Option<PriceStats>, config: Config, now: int)
    requires product.price > 0 && Score(product, listing, tier, stats, config, now).Deal?
    ensures var d := Score(product, listing, tier, stats, config, now).deal;
            Credits(d.breakdown, config.weights, d.referencePrice, product, tier, stats)
  {
    var reference := ReferencePrice(product, stats).value;
    var pct := DiscountPct(reference, product.price);
    DealStores(product, listing, tier, stats, config, now, reference, pct,
               BreakdownOf(product, tier, stats, pct, config));
    BreakdownCredits(product, tier, stats, reference, config);
  }

  /** A deal: something to compare with, both thresholds cleared, and what is stored about it. */
  lemma DealMeaning(
    product: Product, listing: Uuid, tier: Option<BrandTier>, stats: Option<PriceStats>, config: Config, now: int)
    requires product.price > 0 && Score(product, listing, tier, stats, config, now).Deal?
    ensures var d := Score(product, listing, tier, stats, config, now).deal;
            && Stored(d, product, listing, stats, config, now)
            && Credits(d.breakdown, config.weights, d.referencePrice, product, tier, stats)
            && Clears(d.referencePrice, product.price, d.score, config)
  {
    var reference := ReferencePrice(product, stats).value;
    var pct := DiscountPct(reference, product.price);
    var b := BreakdownOf(product, tier, stats, pct, config);
    ComparesMeaning(product, stats, reference);
    DealStores(product, listing, tier, stats, config, now, reference, pct, b);
    DealCredits(product, listing, tier, stats, config, now);
    TotalIsExact(b.Total());
    DiscountRounds(reference, product.price);
    ClearsMeaning(reference, product.price, b.Total(), config);
  }

  /** No deal, although there is something to compare with: these components fail a threshold. */
  lemma SkipMeaning(
    product: Product, listing: Uuid, tier: Option<BrandTier>, stats: Option<PriceStats>, config: Config, now: int,
    reference: int) returns (b: Breakdown)
    requires product.price > 0 && Compares(product, stats, reference)
    requires !Score(product, listing, tier, stats, config, now).Deal?
    ensures Credits(b, config.weights, reference, product, tier, stats)
    ensures !Clears(reference, product.price, b.Total(), config)
  {
    var pct := DiscountPct(reference, product.price);
    b := BreakdownOf(product, tier, stats, pct, config);
    ComparesMeaning(product, stats, reference);
    DealIf(product, listing, tier, stats, config, now, pct, b.Total());
    ClearsMeaning(reference, product.price, b.Total(), config);
    BreakdownCredits(product, tier, stats, reference, config);
  }

  lemma ClearsMeaning(reference: int, price: int, total: int, config: Config)
    requires 0 < reference
    ensures Clears(reference, price, total, config) <==>
            DiscountPct(reference, price) >= config.minDiscountPct && total as real / 100.0 >= config.minScore
  {
    DiscountAtLeast(reference, price, config.minDiscountPct);
    ScaledCompare(config.minScore, total as real / 100.0, 100.0);
  }

  /** Nothing to compare with: skipped. */
  lemma NothingToCompare(
    product: Product, listing: Uuid, tier: Option<BrandTier>, stats: Option<PriceStats>, config: Config, now: int)
    requires forall reference :: !Compares(product, stats, reference)
    ensures Score(product, listing, tier, stats, config, now).Skip?
  {
    var reference := ReferencePrice(product, stats);
    if reference.Some? {
      ComparesMeaning(product, stats, reference.value);
    }
  }

  lemma DiscountRounds(reference: int, price: int)
    requires 0 < reference
    ensures Rounds(Hundredths(DiscountPct(reference, price)), 10000.0 * (reference - price) as real, reference as real)
  {
    var r, off := reference as real, (reference - price) as real;
    var share := off / r;
    assert share * r == off;
    assert DiscountPct(reference, price) * 100.0 * r == 10000.0 * (share * r);
    HalfEvenRounds(DiscountPct(reference, price) * 100.0, 10000.0 * off, r);
  }

  lemma DiscountAtLeast(reference: int, price: int, pct: real)
    requires 0 < reference
    ensures DiscountPct(reference, price) >= pct <==> 100.0 * (reference - price) as real >= pct * reference as real
  {
    var r, off := reference as real, (reference - price) as real;
    var share := off / r;
    assert share * r == off;
    assert DiscountPct(reference, price) * r == 100.0 * (share * r);
    ScaledCompare(pct, DiscountPct(reference, price), r);
  }

  // ---- Inside the handler --------------------------------------------------------------

  /**
    * The handler inserts the current price before it reads the statistics.  So velocity earns
    * full credit exactly when the price is the window's minimum, and history serves as the
    * reference only when the MRP does not beat the price and an earlier observation did.
    */
  lemma HandlerScoring(product: Product, listing: Uuid, earlier: seq<Observation>, windowDays: nat, now: int)
    requires product.price > 0
    requires forall i :: 0 <= i < |earlier| ==> earlier[i].price > 0
    ensures var rows := earlier + [Observation(listing, product.price, product.inStock, now)];
            var stats := Stats(rows, listing, windowDays, now);
            && (VelocityFactor(product.price, stats) == 1.0 <==>
                forall i :: 0 <= i < |earlier| && InWindow(earlier[i], listing, windowDays, now)
                  ==> product.price <= earlier[i].price)
            && (ReferencePrice(product, stats).Some? && ReferencePrice(product, stats) != product.mrp ==>
                exists i :: 0 <= i < |earlier| && InWindow(earlier[i], listing, windowDays, now)
                            && earlier[i].price == ReferencePrice(product, stats).value > product.price)
  {
    var current := Observation(listing, product.price, product.inStock, now);
    var rows := earlier + [current];
    CurrentPriceIsInStats(earlier, current, windowDays);
    StatsMeaning(rows, listing, windowDays, now);
    var stats := Stats(rows, listing, windowDays, now);
    var lo :| 0 <= lo < |rows| && InWindow(rows[lo], listing, windowDays, now)
              && rows[lo].price == stats.value.lowestPrice;
    FullVelocity(product.price, stats.value);
    if stats.value.highestPrice > product.price {
      var hi :| 0 <= hi < |rows| && InWindow(rows[hi], listing, windowDays, now)
                && rows[hi].price == stats.value.highestPrice;
      assert rows[hi] == earlier[hi];
    }
  }
}
