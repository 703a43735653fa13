/**
 What a compaction is worth: the C agent's formula for keeping some of the tokens of a
 conversation, and how it changes with the number kept. The prices of uncached input cancel,
 and the benefit is concave.
 */
module CompactBenefit {
  import opened RealArithmetic

  /** The DP_* settings, with doubles as reals. */
  datatype Config = Config(
    baselineE: int, eFixed: int, lFixed: real,
    v: real, pInput: real, pCache: real, pOut: real, s: real,
    minKeepRatio: real, r: real, beta: real, qualityPenalty: real,
    maxContext: int)

  const MILLION: real := 1000000.0

  /** What a compaction saves on cached prefixes, less the cache it invalidates and the cost of the summary call. */
  function PriceBenefit(cfg: Config, calls: real, total: real, kept: real): real {
    var savings := (calls - 1.0) * cfg.pCache * (total - kept) / MILLION;
    var cacheMiss := (cfg.s + kept) * (cfg.pInput - cfg.pCache) / MILLION;
    var compactCost := (cfg.pCache * cfg.v + cfg.pInput * (total - kept + 70.0) + cfg.pOut * cfg.s) / MILLION;
    savings - cacheMiss - compactCost
  }

  /** What a shorter context saves in retries, quadratic in its length. */
  function QualityBenefit(cfg: Config, total: real, kept: real): real
    requires cfg.maxContext > 0
  {
    if total > cfg.maxContext as real * 0.30 then
      var vt := cfg.v + total;
      var vk := cfg.v + kept;
      cfg.qualityPenalty * cfg.pInput * (vt * vt - vk * vk) / (cfg.maxContext as real * MILLION)
    else 0.0
  }

  /** The net benefit, in dollars, of keeping `kept` of `total` tokens. */
  function Benefit(cfg: Config, calls: real, infoLoss: real, total: real, kept: real): real
    requires cfg.maxContext > 0
  {
    PriceBenefit(cfg, calls, total, kept) - infoLoss + QualityBenefit(cfg, total, kept)
  }

  /** The rate at which the benefit falls between two kept sizes, per token and times a million. */
  function Slope(cfg: Config, calls: real, total: real, k1: real, k2: real): real
    requires cfg.maxContext > 0
  {
    (calls - 2.0) * cfg.pCache
    + if total > cfg.maxContext as real * 0.30 then
        cfg.qualityPenalty * cfg.pInput * (2.0 * cfg.v + k1 + k2) / cfg.maxContext as real
      else 0.0
  }

  lemma QualityDifference(cfg: Config, total: real, x1: real, x2: real)
    requires cfg.maxContext > 0 && total > cfg.maxContext as real * 0.30
    ensures QualityBenefit(cfg, total, x1) - QualityBenefit(cfg, total, x2)
         == (x2 - x1) * (cfg.qualityPenalty * cfg.pInput * (2.0 * cfg.v + x1 + x2) / cfg.maxContext as real) / MILLION
  {
    var q, v, m := cfg.qualityPenalty * cfg.pInput, cfg.v, cfg.maxContext as real;
    var t := v + total;
    SquareDifference(q, v, t, x1, x2);
    DivideDifference(q * (t * t - (v + x1) * (v + x1)), q * (t * t - (v + x2) * (v + x2)), m * MILLION);
    DivideProduct(x2 - x1, q * (2.0 * v + x1 + x2), m);
    DivideTwice((x2 - x1) * (q * (2.0 * v + x1 + x2)), m, MILLION);
  }

  lemma PriceDifference(cfg: Config, calls: real, t: real, x1: real, x2: real)
    ensures PriceBenefit(cfg, calls, t, x1) - PriceBenefit(cfg, calls, t, x2)
         == (x2 - x1) * ((calls - 2.0) * cfg.pCache) / MILLION
  {
    var c := (calls - 1.0) * cfg.pCache;
    var miss := cfg.pInput - cfg.pCache;
    assert c * (t - x1) - c * (t - x2) == c * (x2 - x1);
    assert (cfg.s + x1) * miss - (cfg.s + x2) * miss == (x1 - x2) * miss;
    assert cfg.pInput * (t - x1 + 70.0) - cfg.pInput * (t - x2 + 70.0) == cfg.pInput * (x2 - x1);
    assert c * (x2 - x1) - (x1 - x2) * miss - cfg.pInput * (x2 - x1) == (x2 - x1) * (c - cfg.pCache);
    assert c - cfg.pCache == (calls - 2.0) * cfg.pCache;
  }

  /** The p_input terms cancel: only the cache price and the quality term make the benefit fall. */
  lemma BenefitDifference(cfg: Config, calls: real, infoLoss: real, total: real, x1: real, x2: real)
    requires cfg.maxContext > 0
    ensures Benefit(cfg, calls, infoLoss, total, x1) - Benefit(cfg, calls, infoLoss, total, x2)
         == (x2 - x1) * Slope(cfg, calls, total, x1, x2) / MILLION
  {
    hide PriceBenefit, QualityBenefit;
    PriceDifference(cfg, calls, total, x1, x2);
    if total > cfg.maxContext as real * 0.30 {
      QualityDifference(cfg, total, x1, x2);
      Distribute(x2 - x1, (calls - 2.0) * cfg.pCache,
                 cfg.qualityPenalty * cfg.pInput * (2.0 * cfg.v + x1 + x2) / cfg.maxContext as real, MILLION);
    } else {
      NoQuality(cfg, total, x1);
      NoQuality(cfg, total, x2);
    }
  }

  lemma NoQuality(cfg: Config, total: real, x: real)
    requires cfg.maxContext > 0 && total <= cfg.maxContext as real * 0.30
    ensures QualityBenefit(cfg, total, x) == 0.0
  {
  }

  lemma LessKeptIsBetterIff(cfg: Config, calls: real, infoLoss: real, total: real, x1: real, x2: real)
    requires cfg.maxContext > 0 && x1 < x2
    ensures Benefit(cfg, calls, infoLoss, total, x1) >= Benefit(cfg, calls, infoLoss, total, x2)
       <==> Slope(cfg, calls, total, x1, x2) >= 0.0
  {
    hide Benefit, Slope;
    var b1, b2 := Benefit(cfg, calls, infoLoss, total, x1), Benefit(cfg, calls, infoLoss, total, x2);
    var slope := Slope(cfg, calls, total, x1, x2);
    assert b1 - b2 == (x2 - x1) * slope / MILLION by {
      BenefitDifference(cfg, calls, infoLoss, total, x1, x2);
    }
    assert (x2 - x1) * slope / MILLION >= 0.0 <==> slope >= 0.0 by {
      ProductSign(x2 - x1, slope, MILLION);
    }
  }

  /** The slope grows with the sizes it lies between: the benefit is concave. */
  lemma SlopeGrows(cfg: Config, calls: real, total: real, x1: real, y1: real, x2: real, y2: real)
    requires cfg.maxContext > 0 && cfg.qualityPenalty * cfg.pInput >= 0.0 && x1 + y1 <= x2 + y2
    ensures Slope(cfg, calls, total, x1, y1) <= Slope(cfg, calls, total, x2, y2)
  {
    var q, m := cfg.qualityPenalty * cfg.pInput, cfg.maxContext as real;
    var a, b := 2.0 * cfg.v + x1 + y1, 2.0 * cfg.v + x2 + y2;
    ScaleOrder(q, a, b);
    DivideOrder(q * a, q * b, m);
  }

  lemma SlopeIsNotNegative(cfg: Config, calls: real, total: real, x1: real, x2: real)
    requires cfg.maxContext > 0 && calls >= 2.0 && x1 >= 0.0 && x2 >= 0.0
    requires cfg.pCache >= 0.0 && cfg.v >= 0.0 && cfg.qualityPenalty * cfg.pInput >= 0.0
    ensures Slope(cfg, calls, total, x1, x2) >= 0.0
  {
    assert (calls - 2.0) * cfg.pCache >= 0.0;
    var q, m := cfg.qualityPenalty * cfg.pInput, cfg.maxContext as real;
    var b := 2.0 * cfg.v + x1 + x2;
    assert q * b >= 0.0;
    DivideOrder(0.0, q * b, m);
  }

  lemma OnlyCache(cfg: Config, infoLoss: real, total: real, x1: real, x2: real)
    requires cfg.maxContext > 0 && cfg.pCache > 0.0 && infoLoss == 0.0 && x2 > 0.0
    requires cfg.pInput == 0.0 && cfg.pOut == 0.0 && cfg.v == 0.0 && cfg.s == 0.0
    ensures Benefit(cfg, 1.0, infoLoss, total, x2) > 0.0 && Slope(cfg, 1.0, total, x1, x2) < 0.0
  {
    var q := cfg.qualityPenalty * cfg.pInput;
    assert q == 0.0;
    assert QualityBenefit(cfg, total, x2) == 0.0;
    assert PriceBenefit(cfg, 1.0, total, x2) == x2 * cfg.pCache / MILLION;
    ProductSign(cfg.pCache, -x2, MILLION);
  }
}
