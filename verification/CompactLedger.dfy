/** What a compaction saves and costs, item by item. */
module CompactLedger {
  import opened CompactBenefit
  import opened CompactDecision
  import opened RealArithmetic

  // ---------------------------------------------------------------- the items

  /** Tokens and their price, in dollars for a million. */
  datatype Charge = Charge(tokens: real, price: real)

  function Price(c: Charge): real {
    c.tokens * c.price / 1000000.0
  }

  function Bill(charges: seq<Charge>): real {
    if charges == [] then 0.0 else Price(charges[0]) + Bill(charges[1..])
  }

  const INSTRUCTION_TOKENS: real := 70.0

  /** The summary call: the fixed prefix is cached, what is dropped and the instruction are read, the summary is written. */
  function SummaryCall(cfg: Config, dropped: real): seq<Charge> {
    [Charge(cfg.v, cfg.pCache), Charge(dropped, cfg.pInput), Charge(INSTRUCTION_TOKENS, cfg.pInput), Charge(cfg.s, cfg.pOut)]
  }

  /** The next call: summary and kept lines are not in the cache, and cost that much more. */
  function NextCall(cfg: Config, kept: real): seq<Charge> {
    [Charge(cfg.s, cfg.pInput - cfg.pCache), Charge(kept, cfg.pInput - cfg.pCache)]
  }

  /** What one later call no longer reads from the cache. */
  function LaterCall(cfg: Config, dropped: real): Charge {
    Charge(dropped, cfg.pCache)
  }

  /** Some later calls, one after another. */
  function LaterCalls(cfg: Config, dropped: real, calls: nat): seq<Charge> {
    if calls == 0 then [] else [LaterCall(cfg, dropped)] + LaterCalls(cfg, dropped, calls - 1)
  }

  /** What a context costs in retries: a share of its tokens that grows with its part of the window. */
  function RetryCharge(cfg: Config, context: real): Charge
    requires cfg.maxContext > 0
  {
    Charge(cfg.qualityPenalty * (context / cfg.maxContext as real) * context, cfg.pInput)
  }

  /** What a summary forgets: a share of the input still to come, by what the summaries so far have lost. */
  function ForgottenCharge(cfg: Config, st: Counters): Charge {
    Charge(cfg.beta * (1.0 - Retention(cfg, st)) * (RemainingCalls(cfg, st) * AverageInput(st)), cfg.pInput)
  }

  /** What the calls still to come save, less what the next one and the summary call cost. */
  function CallsWorth(cfg: Config, calls: real, dropped: real, kept: real): real {
    (calls - 1.0) * Price(LaterCall(cfg, dropped)) - Bill(NextCall(cfg, kept)) - Bill(SummaryCall(cfg, dropped))
  }

  /** The retries that a shorter context saves, counted once the old one takes more than three tenths of the window. */
  function RetriesWorth(cfg: Config, total: real, kept: real): real
    requires cfg.maxContext > 0
  {
    if total > 0.30 * cfg.maxContext as real
    then Price(RetryCharge(cfg, cfg.v + total)) - Price(RetryCharge(cfg, cfg.v + kept))
    else 0.0
  }

  /** The dollars that keeping the last k lines and summarising the others is worth. */
  function Worth(lines: seq<LogLine>, cfg: Config, st: Counters, k: nat): real
    requires cfg.maxContext > 0 && k <= |lines|
  {
    var total, kept := Tokens(lines) as real, TailTokens(lines, k) as real;
    CallsWorth(cfg, RemainingCalls(cfg, st), total - kept, kept) - Price(ForgottenCharge(cfg, st)) + RetriesWorth(cfg, total, kept)
  }

  // ---------------------------------------------------------------- the benefit is the ledger

  lemma BillOfTwo(a: Charge, b: Charge)
    ensures Bill([a, b]) == Price(a) + Price(b)
  {
    assert [a, b][1..] == [b] && [b][1..] == [];
    assert Bill([b]) == Price(b);
  }

  lemma BillOfFour(a: Charge, b: Charge, c: Charge, d: Charge)
    ensures Bill([a, b, c, d]) == Price(a) + Price(b) + Price(c) + Price(d)
  {
    hide Price;
    assert [a, b, c, d][1..] == [b, c, d] && [b, c, d][1..] == [c, d];
    BillOfTwo(c, d);
    assert Bill([b, c, d]) == Price(b) + Bill([c, d]);
  }

  lemma SumOfQuotients(a: real, b: real)
    ensures (a + b) / 1000000.0 == a / 1000000.0 + b / 1000000.0
  {
  }

  /** Charges at one price are a charge for the sum. */
  lemma AtOnePrice(a: real, b: real, price: real)
    ensures Price(Charge(a, price)) + Price(Charge(b, price)) == Price(Charge(a + b, price))
  {
    SumTimes(a, b, price);
    SumOfQuotients(a * price, b * price);
  }

  lemma SumTimes(a: real, b: real, q: real)
    ensures (a + b) * q == a * q + b * q
  {
  }

  lemma PriceIs(tokens: real, price: real)
    ensures Price(Charge(tokens, price)) == tokens * price / MILLION == price * tokens / MILLION
  {
    assert MILLION == 1000000.0;
    assert tokens * price == price * tokens;
  }

  lemma NextCallPrice(cfg: Config, kept: real)
    ensures Bill(NextCall(cfg, kept)) == (cfg.s + kept) * (cfg.pInput - cfg.pCache) / MILLION
  {
    hide Price, Bill;
    var surcharge := cfg.pInput - cfg.pCache;
    BillOfTwo(Charge(cfg.s, surcharge), Charge(kept, surcharge));
    AtOnePrice(cfg.s, kept, surcharge);
    PriceIs(cfg.s + kept, surcharge);
  }

  lemma SumOverMillion(a: real, b: real, c: real)
    ensures a / MILLION + b / MILLION + c / MILLION == (a + b + c) / MILLION
  {
    assert MILLION == 1000000.0;
    SumOfQuotients(a, b);
    SumOfQuotients(a + b, c);
  }

  lemma SummaryCallPrice(cfg: Config, dropped: real)
    ensures Bill(SummaryCall(cfg, dropped)) ==
            (cfg.pCache * cfg.v + cfg.pInput * (dropped + 70.0) + cfg.pOut * cfg.s) / MILLION
  {
    hide Price, Bill;
    BillOfFour(Charge(cfg.v, cfg.pCache), Charge(dropped, cfg.pInput), Charge(INSTRUCTION_TOKENS, cfg.pInput),
               Charge(cfg.s, cfg.pOut));
    AtOnePrice(dropped, 70.0, cfg.pInput);
    PriceIs(cfg.v, cfg.pCache);
    PriceIs(dropped + 70.0, cfg.pInput);
    PriceIs(cfg.s, cfg.pOut);
    SumOverMillion(cfg.pCache * cfg.v, cfg.pInput * (dropped + 70.0), cfg.pOut * cfg.s);
  }

  lemma SavingsPrice(cfg: Config, calls: real, dropped: real)
    ensures (calls - 1.0) * cfg.pCache * dropped / MILLION == (calls - 1.0) * Price(LaterCall(cfg, dropped))
  {
    assert MILLION == 1000000.0;
    DivideProduct(calls - 1.0, dropped * cfg.pCache, 1000000.0);
    assert (calls - 1.0) * cfg.pCache * dropped == (calls - 1.0) * (dropped * cfg.pCache);
  }

  lemma PriceIsLedger(cfg: Config, calls: real, total: real, kept: real)
    ensures PriceBenefit(cfg, calls, total, kept) == CallsWorth(cfg, calls, total - kept, kept)
  {
    hide Price, Bill, NextCall, SummaryCall;
    NextCallPrice(cfg, kept);
    SummaryCallPrice(cfg, total - kept);
    SavingsPrice(cfg, calls, total - kept);
  }

  lemma RetryPrice(q: real, p: real, x: real, m: real)
    requires m > 0.0
    ensures q * (x / m) * x * p / 1000000.0 == q * p * (x * x) / (m * 1000000.0)
  {
    DivideTwice(q * p * (x * x), m, 1000000.0);
    var y := x / m;
    assert y * m == x;
    assert q * y * x * p * m == q * p * (x * x);
  }

  lemma QualityIsLedger(cfg: Config, total: real, kept: real)
    requires cfg.maxContext > 0
    ensures QualityBenefit(cfg, total, kept) == RetriesWorth(cfg, total, kept)
  {
    assert MILLION == 1000000.0;
    var q, p, m := cfg.qualityPenalty, cfg.pInput, cfg.maxContext as real;
    var vt, vk := cfg.v + total, cfg.v + kept;
    RetryPrice(q, p, vt, m);
    RetryPrice(q, p, vk, m);
    DivideDifference(q * p * (vt * vt), q * p * (vk * vk), m * 1000000.0);
    assert q * p * (vt * vt) - q * p * (vk * vk) == q * p * (vt * vt - vk * vk);
  }

  lemma InfoLossIsLedger(cfg: Config, st: Counters)
    ensures InfoLoss(cfg, st) == Price(ForgottenCharge(cfg, st))
  {
    hide RemainingCalls, Retention, AverageInput;
  }

  /** What the search compares is what the ledger comes to, for every keep count. */
  lemma BenefitIsLedger(lines: seq<LogLine>, cfg: Config, st: Counters, k: nat)
    requires cfg.maxContext > 0 && k <= |lines|
    ensures KeepBenefit(lines, cfg, st, k) == Worth(lines, cfg, st, k)
  {
    hide PriceBenefit, QualityBenefit, CallsWorth, RetriesWorth, Price, RemainingCalls, InfoLoss, ForgottenCharge, TailTokens, Tokens;
    InfoLossIsLedger(cfg, st);
    var total, kept := Tokens(lines) as real, TailTokens(lines, k) as real;
    PriceIsLedger(cfg, RemainingCalls(cfg, st), total, kept);
    QualityIsLedger(cfg, total, kept);
  }

  /** For a whole number of calls the savings are those of the calls behind the next one, added up. */
  lemma {:induction false} LaterCallsAddUp(cfg: Config, dropped: real, calls: nat)
    ensures Bill(LaterCalls(cfg, dropped, calls)) == calls as real * Price(LaterCall(cfg, dropped))
  {
    if calls > 0 {
      hide Price;
      LaterCallsAddUp(cfg, dropped, calls - 1);
      var p := Price(LaterCall(cfg, dropped));
      assert LaterCalls(cfg, dropped, calls)[1..] == LaterCalls(cfg, dropped, calls - 1);
      assert (calls - 1) as real == calls as real - 1.0;
      assert (calls as real - 1.0) * p + p == calls as real * p;
    }
  }

  /** A compaction is decided on only if the ledger of the best cut is positive, and it is the greatest one. */
  lemma DecisionPays(lines: seq<LogLine>, cfg: Config, st: Counters, keep: nat) returns (best: nat)
    requires cfg.maxContext > 0 && IsDecision(lines, cfg, st, keep) && keep > 0
    ensures Candidate(lines, cfg, best) && keep == GuardedKeep(lines, cfg, best)
    ensures Worth(lines, cfg, st, best) > 0.0
    ensures forall k: nat :: Candidate(lines, cfg, k) ==> Worth(lines, cfg, st, k) <= Worth(lines, cfg, st, best)
  {
    hide KeepBenefit, Worth, GuardedKeep;
    best := DecisionHasFirstBest(lines, cfg, st, keep);
    forall k: nat | Candidate(lines, cfg, k)
      ensures KeepBenefit(lines, cfg, st, k) == Worth(lines, cfg, st, k)
    {
      BenefitIsLedger(lines, cfg, st, k);
    }
  }

  /** When no candidate's ledger is positive nothing is compacted; when one is, the best is taken if the guards allow it. */
  lemma DecisionIsZeroIff(lines: seq<LogLine>, cfg: Config, st: Counters, keep: nat)
    requires cfg.maxContext > 0 && IsDecision(lines, cfg, st, keep)
    ensures keep == 0 <==>
            forall k: nat :: FirstBest(lines, cfg, st, k) ==> Worth(lines, cfg, st, k) <= 0.0 || GuardedKeep(lines, cfg, k) == 0
  {
    hide KeepBenefit, Worth, GuardedKeep;
    forall k: nat | Candidate(lines, cfg, k)
      ensures KeepBenefit(lines, cfg, st, k) == Worth(lines, cfg, st, k)
    {
      BenefitIsLedger(lines, cfg, st, k);
    }
    if keep > 0 {
      var best := DecisionHasFirstBest(lines, cfg, st, keep);
    }
  }

  // ---------------------------------------------------------------- the parts it rests on

  /** A line is counted as its quarters, the last one rounded up, and one more. */
  lemma TokenSizeIff(line: LogLine, t: int)
    ensures t == TokenSize(line) <==> 4 * (t - 2) < line.bytes <= 4 * (t - 1)
  {
  }

  lemma {:induction false} TokensOfEach(lines: seq<LogLine>, i: nat)
    requires i < |lines|
    ensures Tokens(lines) == Tokens(lines[..i]) + TokenSize(lines[i]) + Tokens(lines[i + 1..])
  {
    TokensSplit(lines, i);
    assert lines[i..][1..] == lines[i + 1..];
  }

  /** E: as set; or what is left of the baseline, but never less than half of it; or two. */
  lemma RoundsMeans(cfg: Config, st: Counters)
    ensures cfg.eFixed > 0 ==> Rounds(cfg, st) == cfg.eFixed as real
    ensures cfg.eFixed <= 0 && cfg.baselineE > 1 ==>
      exists half: int :: 2 * half <= cfg.baselineE < 2 * half + 2 && Rounds(cfg, st) >= half as real
        && Rounds(cfg, st) >= (cfg.baselineE - st.turnCount) as real
        && (Rounds(cfg, st) == half as real || Rounds(cfg, st) == (cfg.baselineE - st.turnCount) as real)
    ensures cfg.eFixed <= 0 && cfg.baselineE == 1 ==> Rounds(cfg, st) >= 2.0 && Rounds(cfg, st) >= (1 - st.turnCount) as real
    ensures cfg.eFixed <= 0 && cfg.baselineE <= 0 ==> Rounds(cfg, st) == 2.0
  {
    assert cfg.baselineE > 1 ==> 2 * (cfg.baselineE / 2) <= cfg.baselineE < 2 * (cfg.baselineE / 2) + 2;
  }

  /** L: as set, or the requests shared out over the turns, or five; never less than one. */
  lemma CallsPerRoundMeans(cfg: Config, st: Counters)
    ensures var l := CallsPerRound(cfg, st);
      && l >= 1.0
      && (cfg.lFixed >= 1.0 ==> l == cfg.lFixed)
      && (0.0 < cfg.lFixed < 1.0 ==> l == 1.0)
      && (cfg.lFixed <= 0.0 && 0 < st.turnCount <= st.totalRequests ==> l * st.turnCount as real == st.totalRequests as real)
      && (cfg.lFixed <= 0.0 && 0 < st.totalRequests < st.turnCount ==> l == 1.0)
      && (cfg.lFixed <= 0.0 && (st.turnCount <= 0 || st.totalRequests <= 0) ==> l == 5.0)
  {
    if cfg.lFixed <= 0.0 && st.turnCount > 0 && st.totalRequests > 0 {
      var turns, requests := st.turnCount as real, st.totalRequests as real;
      var share := requests / turns;
      assert share * turns == requests;
      ShareAtLeastOne(share, turns, requests);
    }
  }

  lemma ShareAtLeastOne(share: real, parts: real, whole: real)
    requires parts > 0.0 && share * parts == whole
    ensures share >= 1.0 <==> whole >= parts
  {
    SameSign(share - 1.0, parts);
    assert (share - 1.0) * parts == whole - parts;
  }

  /** The average input of a call: all calls together read what was counted; 4000 before anything was. */
  lemma AverageInputMeans(st: Counters)
    ensures st.totalRequests > 0 && st.totalInput > 0 ==> AverageInput(st) * st.totalRequests as real == st.totalInput as real
    ensures st.totalRequests <= 0 || st.totalInput <= 0 ==> AverageInput(st) == 4000.0
  {
    if st.totalRequests > 0 && st.totalInput > 0 {
      var y := st.totalInput as real / st.totalRequests as real;
      assert y * st.totalRequests as real == st.totalInput as real;
    }
  }

  lemma {:induction false} PowerIsSmall(r: real, n: nat)
    requires 0.0 <= r
    ensures Power(r, n) >= 0.0 && (r <= 1.0 ==> Power(r, n) <= 1.0) && (r >= 1.0 ==> Power(r, n) >= 1.0)
  {
    if n > 0 {
      PowerIsSmall(r, n - 1);
      var p := Power(r, n - 1);
      NonNegativeProduct(p, r);
      if r <= 1.0 {
        NonNegativeProduct(p, 1.0 - r);
        assert p * (1.0 - r) == p - p * r;
      }
      if r >= 1.0 {
        NonNegativeProduct(p, r - 1.0);
        assert p * (r - 1.0) == p * r - p;
      }
    }
  }

  function AtLeastFloor(x: real): real {
    if x < 0.37 then 0.37 else x
  }

  lemma FloorStep(p: real, r: real)
    requires r >= 0.0 && (r > 1.0 ==> p >= 1.0)
    ensures AtLeastFloor(p * r) == AtLeastFloor(AtLeastFloor(p) * r)
  {
    if p < 0.37 {
      NonNegativeProduct(0.37 - p, r);
      assert (0.37 - p) * r == 0.37 * r - p * r;
      assert p * r <= 0.37 * r <= 0.37;
      assert AtLeastFloor(p) == 0.37;
    } else {
      var x := AtLeastFloor(p) * r;
      assert x == p * r;
    }
  }

  /** One summary keeps the share r; every further one keeps r of what the others left; never less than 0.37. */
  lemma RetentionNext(cfg: Config, st: Counters)
    requires cfg.r >= 0.0
    ensures st.totalCompact == 0 ==> Retention(cfg, st) == AtLeastFloor(cfg.r)
    ensures st.totalCompact > 0 ==>
              Retention(cfg, st) == AtLeastFloor(Retention(cfg, st.(totalCompact := st.totalCompact - 1)) * cfg.r)
    ensures st.totalCompact < 0 ==> Retention(cfg, st) == 1.0
    ensures 0.37 <= Retention(cfg, st) && (cfg.r <= 1.0 ==> Retention(cfg, st) <= 1.0)
  {
    RetentionIs(cfg, st);
    if st.totalCompact >= 0 {
      hide Retention;
      var n := st.totalCompact;
      PowerIsSmall(cfg.r, n);
      PowerIsSmall(cfg.r, n + 1);
      PowerOfOne(cfg.r);
      if n > 0 {
        RetentionIs(cfg, st.(totalCompact := n - 1));
        FloorStep(Power(cfg.r, n), cfg.r);
      }
    }
  }

  lemma RetentionIs(cfg: Config, st: Counters)
    ensures st.totalCompact >= 0 ==> Retention(cfg, st) == AtLeastFloor(Power(cfg.r, st.totalCompact + 1))
  {
    hide Power;
  }

  lemma PowerOfOne(r: real)
    ensures Power(r, 1) == r
  {
    assert Power(r, 1) == Power(r, 0) * r;
  }

  /** The least to be dropped: twenty summaries, the fraction of a token cut off. */
  lemma MinDropMeans(cfg: Config)
    ensures cfg.s >= 0.0 ==> MinDrop(cfg) as real <= 20.0 * cfg.s < (MinDrop(cfg) + 1) as real
    ensures cfg.s <= 0.0 ==> (MinDrop(cfg) - 1) as real < 20.0 * cfg.s <= MinDrop(cfg) as real
  {
  }

  /** A share of n lines is the nearest whole number to it, the greater one half-way. */
  lemma ShareIsNearest(n: nat, ratio: real, k: int)
    requires ratio >= 0.0
    ensures k == Share(n, ratio) <==> k as real - 0.5 <= n as real * ratio < k as real + 0.5
  {
    NonNegativeProduct(n as real, ratio);
  }

  /** Floor and ceiling of the search, from the nearest shares below and above. */
  lemma BoundsMean(n: nat, ratio: real)
    requires n > 0
    ensures var low, share := MinKeep(n, ratio), Share(n, ratio);
      && (low == n || low == 3 || low == share)
      && (low < n ==> low >= 3 && low >= share)
      && (low == n ==> n <= 3 || n <= share)
    ensures var low, high, share := MinKeep(n, ratio), MaxKeep(n, ratio), Share(n, 1.0 - ratio);
      high == if low <= share <= n then share else n
  {
  }
}
