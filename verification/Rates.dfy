/**
 * server/rates.js and the part of server/config.js it reads. A tier's price is the exact
 * rational `price / scale` cents a bit (any finite list of rationals has such a scale).
 */
module Rates {
  import opened Basics
  import opened Schema

  datatype Tier = Tier(min: nat, price: int)

  /** The value rate: how many bits a dollar is worth. */
  type ValueRate = n: int | n > 0 witness 100

  datatype Config = Config(
    bitsPerUsd: ValueRate, tiers: seq<Tier>, scale: int, maxBits: int,
    subSharePct: int, subPriceCents: int, subPeriod: Millis, renewalGrace: Millis, stripeGrace: Millis,
    escrow: Millis, minCashoutBits: int,
    dailyVibes: int, maxChargeVibes: int, chargeTtl: Millis, lease: Millis,
    windowOf: (ResetPeriod, Millis) -> Window, unitFits: (nat, nat) -> bool, ratingRetry: Millis,
    creditsOpen: bool, sandboxOpen: bool, topupOpen: bool, topupAmounts: seq<int>, topupFeeBps: nat,
    vibesFromBalance: bool, minPurchaseBits: int, vibesPay: bool, vibesSandbox: bool, authority: bool)

  /** `windowOf` splits time into windows: every instant of a window names that window. */
  ghost predicate Partition(windowOf: (ResetPeriod, Millis) -> Window)
  {
    forall p: ResetPeriod, t: Millis ::
      && windowOf(p, t).start <= t < windowOf(p, t).end
      && forall u: Millis :: windowOf(p, t).start <= u < windowOf(p, t).end ==> windowOf(p, u) == windowOf(p, t)
  }

  ghost predicate Valid(cfg: Config)
  {
    && ValidTiers(cfg)
    && cfg.subPeriod > 0
    && cfg.renewalGrace >= 0
    && Partition(cfg.windowOf)
  }

  /** Tiers as createRates sorts them: highest minimum first. */
  ghost predicate ValidTiers(cfg: Config)
  {
    && cfg.scale > 0
    && |cfg.tiers| > 0
    && (forall i :: 0 <= i < |cfg.tiers| ==> cfg.tiers[i].price > 0)
    && (forall i, j :: 0 <= i < j < |cfg.tiers| ==> cfg.tiers[i].min >= cfg.tiers[j].min)
  }

  /** Creator value of `bits` in cents. */
  function ValueCents(cfg: Config, bits: int): int
  {
    RoundDiv(bits * 100, cfg.bitsPerUsd)
  }

  function BitsForValueCents(cfg: Config, cents: int): int
  {
    Max(0, RoundDiv(cents * cfg.bitsPerUsd, 100))
  }

  /** `bits` is the whole number nearest to what `cents` are worth, halves upwards, and never negative. */
  predicate WorthNearest(cfg: Config, bits: int, cents: int)
  {
    if cents <= 0 then bits == 0 else 200 * bits <= 2 * cents * cfg.bitsPerUsd + 100 < 200 * bits + 200
  }

  lemma BitsAreNearest(cfg: Config, cents: int)
    ensures WorthNearest(cfg, BitsForValueCents(cfg, cents), cents)
  {
    var p := cents * cfg.bitsPerUsd;
    assert 200 * RoundDiv(p, 100) <= 2 * p + 100 < 200 * RoundDiv(p, 100) + 200;
    if cents <= 0 { MulMono(cents, 0, cfg.bitsPerUsd); } else { MulMono(1, cents, cfg.bitsPerUsd); }
  }

  /** `share` is worth the whole cents of the creator's percentage of `base` cents. */
  ghost predicate CreatorShare(cfg: Config, base: int, share: int)
  {
    exists whole: int :: 100 * whole <= base * cfg.subSharePct < 100 * whole + 100 && WorthNearest(cfg, share, whole)
  }

  lemma SharesAreNearest(cfg: Config, base: int)
    ensures CreatorShare(cfg, base, SubShareBits(cfg, base))
  {
    var whole := (base * cfg.subSharePct) / 100;
    BitsAreNearest(cfg, whole);
    assert 100 * whole <= base * cfg.subSharePct < 100 * whole + 100;
  }

  function SubShareBits(cfg: Config, baseCents: int): int
  {
    BitsForValueCents(cfg, (baseCents * cfg.subSharePct) / 100)
  }

  // ------------------------------------------------------------------ price tiers

  /** The place of the first tier `bits` reaches, or of the last one. */
  function TierIndex(tiers: seq<Tier>, bits: int): (k: nat)
    requires |tiers| > 0
    ensures k < |tiers|
    ensures forall i :: 0 <= i < k ==> bits < tiers[i].min
    ensures bits >= tiers[k].min || k == |tiers| - 1
  {
    if bits >= tiers[0].min || |tiers| == 1 then 0 else 1 + TierIndex(tiers[1..], bits)
  }

  /** The exact price of `bits`, in cents times `scale`. */
  function ExactPrice(cfg: Config, bits: int): int
    requires |cfg.tiers| > 0
  {
    bits * cfg.tiers[TierIndex(cfg.tiers, bits)].price
  }

  function PriceCents(cfg: Config, bits: int): int
    requires |cfg.tiers| > 0 && cfg.scale > 0
  {
    RoundDiv(ExactPrice(cfg, bits), cfg.scale)
  }

  /** What `cents` buys at tier k's own price. */
  function Candidate(cfg: Config, cents: int, k: nat): int
    requires k < |cfg.tiers| && cfg.tiers[k].price > 0
  {
    (cents * cfg.scale) / cfg.tiers[k].price
  }

  predicate Qualifies(cfg: Config, cents: int, k: nat)
    requires k < |cfg.tiers| && cfg.tiers[k].price > 0 && cfg.scale > 0
  {
    Candidate(cfg, cents, k) >= cfg.tiers[k].min && PriceCents(cfg, Candidate(cfg, cents, k)) <= cents
  }

  /** The best of the first `n` tiers' candidates. */
  function BestOf(cfg: Config, cents: int, n: nat): int
    requires n <= |cfg.tiers| && cfg.scale > 0
    requires forall i :: 0 <= i < |cfg.tiers| ==> cfg.tiers[i].price > 0
  {
    if n == 0 then 0
    else
      var best := BestOf(cfg, cents, n - 1);
      if Qualifies(cfg, cents, n - 1) && Candidate(cfg, cents, n - 1) > best then Candidate(cfg, cents, n - 1) else best
  }

  function BitsForPriceCents(cfg: Config, cents: int): int
    requires cfg.scale > 0
    requires forall i :: 0 <= i < |cfg.tiers| ==> cfg.tiers[i].price > 0
  {
    BestOf(cfg, cents, |cfg.tiers|)
  }

  /** The loop of bitsForPriceCents. */
  method ComputeBitsForPriceCents(cfg: Config, cents: int) returns (best: int)
    requires ValidTiers(cfg)
    ensures best == BitsForPriceCents(cfg, cents)
  {
    best := 0;
    for k := 0 to |cfg.tiers|
      invariant best == BestOf(cfg, cents, k)
    {
      var b := (cents * cfg.scale) / cfg.tiers[k].price;
      if b >= cfg.tiers[k].min && b > best && PriceCents(cfg, b) <= cents {
        best := b;
      }
    }
  }

  /** Per-bit prices fall (or stay) as the tiers rise. */
  ghost predicate Falling(cfg: Config)
  {
    forall i, j :: 0 <= i < j < |cfg.tiers| ==> cfg.tiers[i].price <= cfg.tiers[j].price
  }

  /** Some tier sells that many, and the exact price is covered. */
  ghost predicate Affordable(cfg: Config, cents: int, n: int)
    requires |cfg.tiers| > 0
  {
    n == 0 || (n > 0 && n >= cfg.tiers[|cfg.tiers| - 1].min && ExactPrice(cfg, n) <= cents * cfg.scale)
  }

  lemma {:induction false} BestStep(cfg: Config, cents: int, n: nat)
    requires ValidTiers(cfg) && 0 < n <= |cfg.tiers|
    requires BestOf(cfg, cents, n - 1) >= 0
    ensures var best, last := BestOf(cfg, cents, n - 1), n - 1;
      BestOf(cfg, cents, n) == if Qualifies(cfg, cents, last) then Max(best, Candidate(cfg, cents, last)) else best
  {
    hide Qualifies, Candidate;
  }

  lemma {:induction false} BestIsMax(cfg: Config, cents: int, n: nat)
    requires ValidTiers(cfg) && n <= |cfg.tiers|
    ensures BestOf(cfg, cents, n) >= 0
    ensures forall k :: 0 <= k < n && Qualifies(cfg, cents, k) ==> Candidate(cfg, cents, k) <= BestOf(cfg, cents, n)
    ensures BestOf(cfg, cents, n) == 0 || exists k :: 0 <= k < n && Qualifies(cfg, cents, k) && Candidate(cfg, cents, k) == BestOf(cfg, cents, n)
  {
    if n > 0 {
      BestIsMax(cfg, cents, n - 1);
      BestStep(cfg, cents, n);
      hide BestOf, Qualifies, Candidate;
    }
  }

  /** A candidate above its tier's minimum never costs more than the money, at whichever tier it lands. */
  lemma CandidateCost(cfg: Config, cents: int, k: nat)
    requires ValidTiers(cfg) && Falling(cfg) && k < |cfg.tiers| && cents >= 0
    requires Candidate(cfg, cents, k) >= cfg.tiers[k].min
    ensures ExactPrice(cfg, Candidate(cfg, cents, k)) <= cents * cfg.scale
    ensures Qualifies(cfg, cents, k)
  {
    var c := Candidate(cfg, cents, k);
    var at := TierIndex(cfg.tiers, c);
    assert at <= k;
    assert cfg.tiers[at].price <= cfg.tiers[k].price;
    MulMono(cfg.tiers[at].price, cfg.tiers[k].price, c);
    assert cfg.tiers[k].price * c <= cents * cfg.scale;
    RoundMono(ExactPrice(cfg, c), cents * cfg.scale, cfg.scale);
    RoundExact(cents, cfg.scale);
  }

  lemma AffordableQualifies(cfg: Config, cents: int, n: int)
    requires ValidTiers(cfg) && Falling(cfg) && cents >= 0 && n > 0 && n >= cfg.tiers[TierIndex(cfg.tiers, n)].min
    requires ExactPrice(cfg, n) <= cents * cfg.scale
    ensures n <= Candidate(cfg, cents, TierIndex(cfg.tiers, n))
    ensures Qualifies(cfg, cents, TierIndex(cfg.tiers, n))
  {
    var k := TierIndex(cfg.tiers, n);
    DivFits(n, cfg.tiers[k].price, cents * cfg.scale);
    CandidateCost(cfg, cents, k);
  }

  /**
   * With falling prices, bitsForPriceCents(c) is the largest number of bits whose exact
   * price at its own tier is at most c.
   */
  lemma BitsForPriceIsLargest(cfg: Config, cents: int, n: int)
    requires ValidTiers(cfg) && Falling(cfg) && cents >= 0
    ensures Affordable(cfg, cents, BitsForPriceCents(cfg, cents))
    ensures Affordable(cfg, cents, n) ==> n <= BitsForPriceCents(cfg, cents)
  {
    hide BestOf, Candidate, ExactPrice;
    var best := BitsForPriceCents(cfg, cents);
    BestIsMax(cfg, cents, |cfg.tiers|);
    if best != 0 {
      var k :| 0 <= k < |cfg.tiers| && Qualifies(cfg, cents, k) && Candidate(cfg, cents, k) == best;
      CandidateCost(cfg, cents, k);
    }
    if Affordable(cfg, cents, n) && n > 0 {
      AffordableQualifies(cfg, cents, n);
    }
  }

  /** More money never buys fewer bits. */
  lemma BitsForPriceMonotone(cfg: Config, c: int, d: int)
    requires ValidTiers(cfg) && Falling(cfg) && 0 <= c <= d
    ensures BitsForPriceCents(cfg, c) <= BitsForPriceCents(cfg, d)
  {
    BitsForPriceIsLargest(cfg, c, 0);
    MulMono(c, d, cfg.scale);
    BitsForPriceIsLargest(cfg, d, BitsForPriceCents(cfg, c));
  }

  /** When every tier costs at least the value rate, a payment never buys more value than it brings. */
  lemma BitsForPriceCovered(cfg: Config, cents: int)
    requires ValidTiers(cfg) && Falling(cfg) && cents >= 0
    requires forall i :: 0 <= i < |cfg.tiers| ==> cfg.tiers[i].price * cfg.bitsPerUsd >= 100 * cfg.scale
    ensures ValueCents(cfg, BitsForPriceCents(cfg, cents)) <= cents
  {
    var b := BitsForPriceCents(cfg, cents);
    BitsForPriceIsLargest(cfg, cents, 0);
    var k := TierIndex(cfg.tiers, b);
    CoveredAtPrice(b, cfg.tiers[k].price, cents, cfg.scale, cfg.bitsPerUsd);
    RoundMono(b * 100, cents * cfg.bitsPerUsd, cfg.bitsPerUsd);
    RoundExact(cents, cfg.bitsPerUsd);
  }

  lemma CoveredAtPrice(b: int, p: int, cents: int, scale: int, rate: int)
    requires b >= 0 && scale > 0 && rate > 0 && p * rate >= 100 * scale && b * p <= cents * scale
    ensures b * 100 <= cents * rate
  {
    MulMono(100 * scale, p * rate, b);
    MulMono(b * p, cents * scale, rate);
    assert (b * 100) * scale == b * (100 * scale) <= b * (p * rate) == (b * p) * rate <= (cents * scale) * rate == (cents * rate) * scale;
    Cancel(b * 100, cents * rate, scale);
  }

  /** Each tier starts at a whole number of cents, and a bit costs at least half a cent. */
  ghost predicate WholeStarts(cfg: Config)
  {
    && cfg.scale > 0
    && cfg.tiers != []
    && cfg.tiers[|cfg.tiers| - 1].min == 0
    && (forall i :: 0 <= i < |cfg.tiers| ==> 2 * cfg.tiers[i].price >= cfg.scale)
    && (forall i :: 0 <= i < |cfg.tiers| ==> (cfg.tiers[i].min * cfg.tiers[i].price) % cfg.scale == 0)
  }

  /** Paying the rounded price of n bits buys n bits, give or take the one the rounding ate. */
  lemma PriceRoundTrip(cfg: Config, n: nat)
    requires ValidTiers(cfg) && Falling(cfg) && WholeStarts(cfg)
    ensures BitsForPriceCents(cfg, PriceCents(cfg, n)) >= n - 1
  {
    var cents := PriceCents(cfg, n);
    var k := TierIndex(cfg.tiers, n);
    var p, scale := cfg.tiers[k].price, cfg.scale;
    BestIsMax(cfg, cents, |cfg.tiers|);
    if n > 1 {
      RoundedPrice(n, p, scale);
      if n == cfg.tiers[k].min {
        WholePrice(n, p, scale);
        AffordableQualifies(cfg, cents, n);
      } else {
        DivFits(n - 1, p, cents * scale);
        CandidateCost(cfg, cents, k);
      }
    }
  }

  lemma RoundedPrice(n: nat, p: int, scale: int)
    requires scale > 0 && 2 * p >= scale && n > 0
    ensures (n - 1) * p <= RoundDiv(n * p, scale) * scale
    ensures RoundDiv(n * p, scale) >= 0
  {
    var r := RoundDiv(n * p, scale);
    assert 2 * scale * r == 2 * (r * scale);
    assert (n - 1) * p == n * p - p;
    assert n * p >= 0;
  }

  lemma WholePrice(n: nat, p: int, scale: int)
    requires scale > 0 && (n * p) % scale == 0
    ensures RoundDiv(n * p, scale) * scale == n * p
  {
    var q := (n * p) / scale;
    assert n * p == q * scale;
    RoundExact(q, scale);
  }

  /** BILLING_PRICE_TIERS by default, in ten-thousandths of a dollar a bit (scale 100). */
  const DEFAULT_TIERS: seq<Tier> := [
    Tier(25000, 110), Tier(10000, 115), Tier(5000, 120), Tier(2500, 124), Tier(1000, 130), Tier(500, 140), Tier(0, 150)]

  lemma DefaultTiersRoundTrip(cfg: Config, n: nat)
    requires cfg.tiers == DEFAULT_TIERS && cfg.scale == 100
    ensures BitsForPriceCents(cfg, PriceCents(cfg, n)) >= n - 1
  {
    PriceRoundTrip(cfg, n);
  }

  /** No amount of bits is cheaper than a smaller one. */
  ghost predicate PriceRises(cfg: Config)
    requires ValidTiers(cfg)
  {
    forall a: nat, b: nat :: a <= b ==> PriceCents(cfg, a) <= PriceCents(cfg, b)
  }

  /** The first amount of a tier costs no less than the last amount below it. */
  ghost predicate EdgeRises(cfg: Config, i: nat)
    requires ValidTiers(cfg) && i < |cfg.tiers|
  {
    var min := cfg.tiers[i].min;
    min > 0 ==> PriceCents(cfg, min - 1) <= PriceCents(cfg, min)
  }

  /** One bit more: at the same tier, or across the edge where the next tier starts. */
  lemma PriceStep(cfg: Config, n: nat)
    requires ValidTiers(cfg) && forall i :: 0 <= i < |cfg.tiers| ==> EdgeRises(cfg, i)
    ensures PriceCents(cfg, n) <= PriceCents(cfg, n + 1)
  {
    var k, m := TierIndex(cfg.tiers, n), TierIndex(cfg.tiers, n + 1);
    if k == m {
      var p := cfg.tiers[k].price;
      MulMono(n, n + 1, p);
      RoundMono(n * p, (n + 1) * p, cfg.scale);
    } else {
      assert m < k && cfg.tiers[m].min == n + 1;
      assert EdgeRises(cfg, m);
    }
  }

  lemma {:induction false} PriceClimbs(cfg: Config, a: nat, b: nat)
    requires ValidTiers(cfg) && a <= b && forall i :: 0 <= i < |cfg.tiers| ==> EdgeRises(cfg, i)
    ensures PriceCents(cfg, a) <= PriceCents(cfg, b)
    decreases b - a
  {
    if a < b {
      PriceClimbs(cfg, a, b - 1);
      PriceStep(cfg, b - 1);
    }
  }

  /** The price is monotone over every amount if and only if it does not fall at any tier's edge. */
  lemma PriceRisesExactly(cfg: Config)
    requires ValidTiers(cfg)
    ensures PriceRises(cfg) <==> forall i :: 0 <= i < |cfg.tiers| ==> EdgeRises(cfg, i)
  {
    hide PriceCents;
    if forall i :: 0 <= i < |cfg.tiers| ==> EdgeRises(cfg, i) {
      forall a: nat, b: nat | a <= b ensures PriceCents(cfg, a) <= PriceCents(cfg, b) {
        PriceClimbs(cfg, a, b);
      }
    }
  }

  /** The default tiers fall at an edge: the package of 25000 bits costs less than 24999 bits do. */
  lemma PriceNotMonotone(cfg: Config)
    requires ValidTiers(cfg) && cfg.tiers == DEFAULT_TIERS && cfg.scale == 100
    ensures PriceCents(cfg, 25000) < PriceCents(cfg, 24999) && !EdgeRises(cfg, 0) && !PriceRises(cfg)
  {
    assert TierIndex(cfg.tiers, 25000) == 0;
    assert TierIndex(cfg.tiers[1..], 24999) == 0;
    assert TierIndex(cfg.tiers, 24999) == 1;
  }
}
