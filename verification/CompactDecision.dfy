/** Cache-aware compaction: how many trailing log lines to keep. */
module CompactDecision {
  import opened CompactBenefit
  import opened RealArithmetic

  /** What the decision reads of a conversation line: its length and whether it is a user text line. */
  datatype LogLine = LogLine(bytes: nat, isUser: bool)

  /** The session counters the decision reads from stats.json. */
  datatype Counters = Counters(turnCount: int, totalRequests: int, totalCompact: int, totalInput: int)

  /** C's conversion of a double to an integer: the fraction is dropped, towards zero. */
  function Trunc(x: real): int {
    if x >= 0.0 then x.Floor else -((-x).Floor)
  }

  function TokenSize(line: LogLine): (t: nat)
    ensures t >= 1
  {
    (line.bytes + 3) / 4 + 1
  }

  function Tokens(lines: seq<LogLine>): nat {
    if lines == [] then 0 else TokenSize(lines[0]) + Tokens(lines[1..])
  }

  function TailTokens(lines: seq<LogLine>, k: nat): nat
    requires k <= |lines|
  {
    Tokens(lines[|lines| - k..])
  }

  // ---------------------------------------------------------------- parameters

  /** E: expected remaining rounds of user input. */
  function Rounds(cfg: Config, st: Counters): real {
    if cfg.eFixed > 0 then
      cfg.eFixed as real
    else if cfg.baselineE > 0 then
      var remaining := cfg.baselineE - st.turnCount;
      var floor := if cfg.baselineE > 1 then cfg.baselineE / 2 else 2;
      if remaining > floor then remaining as real else floor as real
    else
      2.0
  }

  /** L: model calls per round. */
  function CallsPerRound(cfg: Config, st: Counters): real {
    var l :=
      if cfg.lFixed > 0.0 then cfg.lFixed
      else if st.turnCount > 0 && st.totalRequests > 0 then st.totalRequests as real / st.turnCount as real
      else 5.0;
    if l < 1.0 then 1.0 else l
  }

  /** R: expected remaining model calls. */
  function RemainingCalls(cfg: Config, st: Counters): real {
    Rounds(cfg, st) * CallsPerRound(cfg, st)
  }

  function AverageInput(st: Counters): real {
    if st.totalRequests > 0 && st.totalInput > 0 then st.totalInput as real / st.totalRequests as real else 4000.0
  }

  function Power(r: real, n: nat): real {
    if n == 0 then 1.0 else Power(r, n - 1) * r
  }

  function Retention(cfg: Config, st: Counters): real {
    var rT := if st.totalCompact < 0 then 1.0 else Power(cfg.r, st.totalCompact + 1);
    if rT < 0.37 then 0.37 else rT
  }

  function InfoLoss(cfg: Config, st: Counters): real {
    cfg.beta * (1.0 - Retention(cfg, st)) * (RemainingCalls(cfg, st) * AverageInput(st)) * cfg.pInput / MILLION
  }

  /** A share of n, rounded to the nearest integer. */
  function Share(n: nat, ratio: real): int {
    Trunc(n as real * ratio + 0.5)
  }

  /** At least three lines, and at most all of them. */
  function FloorOf(n: nat, share: int): (k: nat)
    ensures k <= n && (n > 0 ==> k > 0)
    ensures k == n || (k >= 3 && k >= share)
  {
    var k := if share < 3 then 3 else share;
    if k > n then n else k
  }

  /** No more than the share, unless that is below the floor: then there is no ceiling. */
  function CeilingOf(n: nat, floor: nat, share: int): (k: nat)
    requires floor <= n
    ensures floor <= k <= n
    ensures k == n || k == share
  {
    var k := if share > n then n else share;
    if k < floor then n else k
  }

  function MinKeep(n: nat, ratio: real): nat {
    FloorOf(n, Share(n, ratio))
  }

  function MaxKeep(n: nat, ratio: real): nat {
    CeilingOf(n, MinKeep(n, ratio), Share(n, 1.0 - ratio))
  }

  function MinDrop(cfg: Config): int {
    Trunc(20.0 * cfg.s)
  }

  // ---------------------------------------------------------------- the benefit

  function KeepBenefit(lines: seq<LogLine>, cfg: Config, st: Counters, k: nat): real
    requires cfg.maxContext > 0 && k <= |lines|
  {
    Benefit(cfg, RemainingCalls(cfg, st), InfoLoss(cfg, st), Tokens(lines) as real, TailTokens(lines, k) as real)
  }

  /** The keep counts the search compares: between floor and ceiling, and dropping something. */
  predicate Candidate(lines: seq<LogLine>, cfg: Config, k: nat) {
    MinKeep(|lines|, cfg.minKeepRatio) <= k <= MaxKeep(|lines|, cfg.minKeepRatio) && k < |lines|
  }

  /** k is the first candidate of greatest benefit. */
  ghost predicate FirstBest(lines: seq<LogLine>, cfg: Config, st: Counters, k: nat)
    requires cfg.maxContext > 0
  {
    && Candidate(lines, cfg, k)
    && (forall j: nat :: Candidate(lines, cfg, j) ==> KeepBenefit(lines, cfg, st, j) <= KeepBenefit(lines, cfg, st, k))
    && (forall j: nat :: Candidate(lines, cfg, j) && j < k ==> KeepBenefit(lines, cfg, st, j) < KeepBenefit(lines, cfg, st, k))
  }

  // ---------------------------------------------------------------- alignment

  /** The smallest keep count from k up whose first kept line is a user line; everything if there is none. */
  function AlignedKeep(lines: seq<LogLine>, k: nat): (adj: nat)
    requires 0 < k <= |lines|
    ensures k <= adj <= |lines|
    ensures adj == |lines| || lines[|lines| - adj].isUser
    ensures forall i :: |lines| - adj < i <= |lines| - k && i < |lines| ==> !lines[i].isUser
    decreases |lines| - k
  {
    if k == |lines| || lines[|lines| - k].isUser then k else AlignedKeep(lines, k + 1)
  }

  /** Alignment followed by the ceiling and minimum-drop guards; 0 is "do not compact". */
  function GuardedKeep(lines: seq<LogLine>, cfg: Config, k: nat): nat
    requires 0 < k <= |lines|
  {
    var adj := AlignedKeep(lines, k);
    if adj > MaxKeep(|lines|, cfg.minKeepRatio) then 0
    else if Tokens(lines) - TailTokens(lines, adj) < MinDrop(cfg) then 0
    else adj
  }

  /** The answer the search must give, stated from the first best candidate. */
  ghost predicate IsDecision(lines: seq<LogLine>, cfg: Config, st: Counters, keep: nat)
    requires cfg.maxContext > 0
  {
    && ((forall k: nat :: !Candidate(lines, cfg, k)) ==> keep == 0)
    && (forall k: nat :: FirstBest(lines, cfg, st, k) ==>
          keep == if KeepBenefit(lines, cfg, st, k) > 0.0 then GuardedKeep(lines, cfg, k) else 0)
  }

  // ---------------------------------------------------------------- token sums

  lemma {:induction false} TokensSplit(lines: seq<LogLine>, i: nat)
    requires i <= |lines|
    ensures Tokens(lines) == Tokens(lines[..i]) + Tokens(lines[i..])
  {
    if i == 0 {
      assert lines[0..] == lines;
    } else {
      assert lines[..i][1..] == lines[1..][..i - 1];
      TokensSplit(lines[1..], i - 1);
    }
  }

  lemma {:induction false} TailTokensGrow(lines: seq<LogLine>, j: nat, k: nat)
    requires j <= k <= |lines|
    ensures TailTokens(lines, j) <= TailTokens(lines, k)
    ensures j < k ==> TailTokens(lines, j) < TailTokens(lines, k)
    decreases k - j
  {
    if j < k {
      assert lines[|lines| - k..][1..] == lines[|lines| - (k - 1)..];
      TailTokensGrow(lines, j, k - 1);
    }
  }

  lemma DropIsPositive(lines: seq<LogLine>, k: nat)
    requires k <= |lines|
    ensures TailTokens(lines, k) <= Tokens(lines)
    ensures Tokens(lines) - TailTokens(lines, k) > 0 <==> k < |lines|
  {
    assert lines[|lines| - |lines|..] == lines;
    TailTokensGrow(lines, k, |lines|);
  }

  // ---------------------------------------------------------------- the search

  /**
   The C agent compares every keep count for the one with the greatest benefit, then
   moves the cut back to a user line. What follows the search proves where it ends.
   */
  method CompactDPDecision(lines: seq<LogLine>, cfg: Config, st: Counters) returns (result: nat)
    requires cfg.maxContext > 0
    ensures IsDecision(lines, cfg, st, result)
  {
    var n := |lines|;
    if n == 0 { return 0; }
    var sizes := new nat[n];
    var isUser := new bool[n];
    var totalTokens := 0;
    var i := 0;
    while i < n
      invariant 0 <= i <= n
      invariant totalTokens + Tokens(lines[i..]) == Tokens(lines)
      invariant forall j :: 0 <= j < i ==> sizes[j] == TokenSize(lines[j]) && isUser[j] == lines[j].isUser
    {
      sizes[i] := (lines[i].bytes + 3) / 4 + 1;
      totalTokens := totalTokens + sizes[i];
      isUser[i] := lines[i].isUser;
      assert lines[i..][1..] == lines[i + 1..];
      i := i + 1;
    }
    var maxKeep := MaxKeep(n, cfg.minKeepRatio);
    var bestK, bestBenefit := SearchKeep(lines, cfg, st, sizes, totalTokens);

    result := 0;
    if bestBenefit > 0.0 {
      var adj := AlignToUser(lines, isUser, bestK);
      if adj <= maxKeep {
        var kept := SumSizes(lines, sizes, adj);
        if totalTokens - kept >= Trunc(20.0 * cfg.s) {
          result := adj;
        }
      }
    }
    SearchEndsAtFirstBest(lines, cfg, st, bestK, bestBenefit, result);
  }

  /** The search over keep counts; a candidate replaces the best so far only when it is strictly better. */
  method SearchKeep(lines: seq<LogLine>, cfg: Config, st: Counters, sizes: array<nat>, totalTokens: nat)
    returns (bestK: nat, bestBenefit: real)
    requires cfg.maxContext > 0 && sizes.Length == |lines| > 0
    requires forall j :: 0 <= j < |lines| ==> sizes[j] == TokenSize(lines[j])
    requires totalTokens == Tokens(lines)
    ensures SearchedTo(lines, cfg, st, MaxKeep(|lines|, cfg.minKeepRatio) + 1, bestK, bestBenefit)
  {
    hide KeepBenefit, Benefit, RemainingCalls, InfoLoss, Share, FloorOf, CeilingOf;
    var calls := RemainingCalls(cfg, st);
    var infoLoss := InfoLoss(cfg, st);
    var maxKeep := MaxKeep(|lines|, cfg.minKeepRatio);
    bestK, bestBenefit := 0, -1000000000000000000.0;
    var k := MinKeep(|lines|, cfg.minKeepRatio);
    while k <= maxKeep
      invariant MinKeep(|lines|, cfg.minKeepRatio) <= k <= maxKeep + 1
      invariant SearchedTo(lines, cfg, st, k, bestK, bestBenefit)
    {
      var kept := SumSizes(lines, sizes, k);
      DropIsPositive(lines, k);
      if totalTokens - kept > 0 {
        var benefit := Benefit(cfg, calls, infoLoss, totalTokens as real, kept as real);
        BenefitOfKeep(lines, cfg, st, k);
        if benefit > bestBenefit {
          bestBenefit := benefit;
          bestK := k;
        }
      }
      k := k + 1;
    }
  }

  lemma BenefitOfKeep(lines: seq<LogLine>, cfg: Config, st: Counters, k: nat)
    requires cfg.maxContext > 0 && k <= |lines|
    ensures KeepBenefit(lines, cfg, st, k) ==
            Benefit(cfg, RemainingCalls(cfg, st), InfoLoss(cfg, st), Tokens(lines) as real, TailTokens(lines, k) as real)
  {
  }

  /** Moving the cut back until it stands at a user line or at the start of the log. */
  method AlignToUser(lines: seq<LogLine>, isUser: array<bool>, k: nat) returns (adj: nat)
    requires 0 < k <= |lines| == isUser.Length
    requires forall j :: 0 <= j < |lines| ==> isUser[j] == lines[j].isUser
    ensures adj == AlignedKeep(lines, k)
  {
    var cut := |lines| - k;
    while cut > 0 && !isUser[cut]
      invariant 0 <= cut <= |lines| - k
      invariant AlignedKeep(lines, k) == AlignedKeep(lines, |lines| - cut)
    {
      cut := cut - 1;
    }
    adj := |lines| - cut;
  }

  /** What the search knows after comparing the candidates below `k`. */
  ghost predicate SearchedTo(lines: seq<LogLine>, cfg: Config, st: Counters, k: nat, bestK: nat, best: real)
    requires cfg.maxContext > 0
  {
    && (forall j: nat :: Candidate(lines, cfg, j) && j < k ==> KeepBenefit(lines, cfg, st, j) <= best)
    && (best <= 0.0 || 0 < bestK)
    && (bestK > 0 ==>
          && Candidate(lines, cfg, bestK) && bestK < k
          && KeepBenefit(lines, cfg, st, bestK) == best
          && forall j: nat :: Candidate(lines, cfg, j) && j < bestK ==> KeepBenefit(lines, cfg, st, j) < best)
  }

  /** The inner summation loop: the tokens of the last `k` lines. */
  method SumSizes(lines: seq<LogLine>, sizes: array<nat>, k: nat) returns (kept: nat)
    requires sizes.Length == |lines| && k <= |lines|
    requires forall j :: 0 <= j < |lines| ==> sizes[j] == TokenSize(lines[j])
    ensures kept == TailTokens(lines, k)
  {
    kept := 0;
    var i := |lines| - k;
    while i < |lines|
      invariant |lines| - k <= i <= |lines|
      invariant kept + Tokens(lines[i..]) == TailTokens(lines, k)
    {
      kept := kept + sizes[i];
      assert lines[i..][1..] == lines[i + 1..];
      i := i + 1;
    }
  }

  lemma SearchEndsAtFirstBest(lines: seq<LogLine>, cfg: Config, st: Counters, bestK: nat, best: real, result: nat)
    requires cfg.maxContext > 0 && |lines| > 0
    requires SearchedTo(lines, cfg, st, MaxKeep(|lines|, cfg.minKeepRatio) + 1, bestK, best)
    requires result == if best > 0.0 then GuardedKeep(lines, cfg, bestK) else 0
    ensures IsDecision(lines, cfg, st, result)
  {
    forall k: nat | FirstBest(lines, cfg, st, k)
      ensures result == if KeepBenefit(lines, cfg, st, k) > 0.0 then GuardedKeep(lines, cfg, k) else 0
    {
      if best > 0.0 {
        assert KeepBenefit(lines, cfg, st, bestK) <= KeepBenefit(lines, cfg, st, k) <= best;
        assert bestK == k;
      }
    }
  }

  // ---------------------------------------------------------------- the closed form

  /** Keeping fewer lines is at least as good exactly when the slope between the two sizes is not negative. */
  lemma FewerIsBetterIff(lines: seq<LogLine>, cfg: Config, st: Counters, j: nat, k: nat)
    requires cfg.maxContext > 0 && j < k <= |lines|
    ensures KeepBenefit(lines, cfg, st, j) >= KeepBenefit(lines, cfg, st, k)
       <==> KeepSlope(lines, cfg, st, j, k) >= 0.0
  {
    TailTokensGrow(lines, j, k);
    LessKeptIsBetterIff(cfg, RemainingCalls(cfg, st), InfoLoss(cfg, st), Tokens(lines) as real,
                        TailTokens(lines, j) as real, TailTokens(lines, k) as real);
  }

  function KeepSlope(lines: seq<LogLine>, cfg: Config, st: Counters, j: nat, k: nat): real
    requires cfg.maxContext > 0 && j <= |lines| && k <= |lines|
  {
    Slope(cfg, RemainingCalls(cfg, st), Tokens(lines) as real, TailTokens(lines, j) as real, TailTokens(lines, k) as real)
  }

  lemma {:induction false} FirstBestBelow(lines: seq<LogLine>, cfg: Config, st: Counters, hi: nat) returns (k: nat)
    requires cfg.maxContext > 0 && exists j: nat :: j < hi && Candidate(lines, cfg, j)
    ensures k < hi && Candidate(lines, cfg, k)
    ensures forall j: nat :: Candidate(lines, cfg, j) && j < hi ==>
              && KeepBenefit(lines, cfg, st, j) <= KeepBenefit(lines, cfg, st, k)
              && (j < k ==> KeepBenefit(lines, cfg, st, j) < KeepBenefit(lines, cfg, st, k))
  {
    if exists j: nat :: j < hi - 1 && Candidate(lines, cfg, j) {
      k := FirstBestBelow(lines, cfg, st, hi - 1);
      if Candidate(lines, cfg, hi - 1) && KeepBenefit(lines, cfg, st, hi - 1) > KeepBenefit(lines, cfg, st, k) {
        k := hi - 1;
      }
    } else {
      k := hi - 1;
    }
  }

  /** A candidate that it gains to reach and does not gain to leave. */
  predicate TurningPoint(lines: seq<LogLine>, cfg: Config, st: Counters, k: nat)
    requires cfg.maxContext > 0
  {
    && Candidate(lines, cfg, k)
    && (k > 0 && Candidate(lines, cfg, k - 1) ==> KeepSlope(lines, cfg, st, k - 1, k) < 0.0)
    && (Candidate(lines, cfg, k + 1) ==> KeepSlope(lines, cfg, st, k, k + 1) >= 0.0)
  }

  lemma KeepSlopeGrows(lines: seq<LogLine>, cfg: Config, st: Counters, i: nat, j: nat, i': nat, j': nat)
    requires cfg.maxContext > 0 && cfg.qualityPenalty * cfg.pInput >= 0.0
    requires i <= i' <= |lines| && j <= j' <= |lines|
    ensures KeepSlope(lines, cfg, st, i, j) <= KeepSlope(lines, cfg, st, i', j')
  {
    TailTokensGrow(lines, i, i');
    TailTokensGrow(lines, j, j');
    SlopeGrows(cfg, RemainingCalls(cfg, st), Tokens(lines) as real, TailTokens(lines, i) as real,
               TailTokens(lines, j) as real, TailTokens(lines, i') as real, TailTokens(lines, j') as real);
  }

  /**
   Where the search ends, whatever R is: at the turning point. The benefit is concave in the
   kept tokens, so the steps on either side decide for all the others.
   */
  lemma FirstBestIff(lines: seq<LogLine>, cfg: Config, st: Counters, k: nat)
    requires cfg.maxContext > 0 && cfg.qualityPenalty * cfg.pInput >= 0.0
    ensures FirstBest(lines, cfg, st, k) <==> TurningPoint(lines, cfg, st, k)
  {
    hide KeepBenefit, KeepSlope, MinKeep, MaxKeep;
    if Candidate(lines, cfg, k) {
      if k > 0 && Candidate(lines, cfg, k - 1) { FewerIsBetterIff(lines, cfg, st, k - 1, k); }
      if Candidate(lines, cfg, k + 1) { FewerIsBetterIff(lines, cfg, st, k, k + 1); }
    }
    if TurningPoint(lines, cfg, st, k) {
      forall j: nat | Candidate(lines, cfg, j) && k < j
        ensures KeepBenefit(lines, cfg, st, j) <= KeepBenefit(lines, cfg, st, k)
      {
        KeepSlopeGrows(lines, cfg, st, k, k + 1, k, j);
        FewerIsBetterIff(lines, cfg, st, k, j);
      }
      forall j: nat | Candidate(lines, cfg, j) && j < k
        ensures KeepBenefit(lines, cfg, st, j) < KeepBenefit(lines, cfg, st, k)
      {
        KeepSlopeGrows(lines, cfg, st, j, k, k - 1, k);
        FewerIsBetterIff(lines, cfg, st, j, k);
      }
    }
  }

  /**
   The search in closed form for every R: with a candidate there is one turning point, and the
   answer is that point, aligned and guarded, if it pays, and 0 if not.
   */
  lemma DecisionIsTurningPoint(lines: seq<LogLine>, cfg: Config, st: Counters, keep: nat) returns (k: nat)
    requires cfg.maxContext > 0 && cfg.qualityPenalty * cfg.pInput >= 0.0
    requires IsDecision(lines, cfg, st, keep)
    requires exists j: nat :: Candidate(lines, cfg, j)
    ensures TurningPoint(lines, cfg, st, k) && forall j: nat :: TurningPoint(lines, cfg, st, j) ==> j == k
    ensures keep == if KeepBenefit(lines, cfg, st, k) > 0.0 then GuardedKeep(lines, cfg, k) else 0
  {
    hide KeepBenefit, TurningPoint, GuardedKeep;
    var j: nat :| Candidate(lines, cfg, j);
    k := FirstBestBelow(lines, cfg, st, |lines|);
    assert FirstBest(lines, cfg, st, k);
    FirstBestIff(lines, cfg, st, k);
    forall j: nat | TurningPoint(lines, cfg, st, j)
      ensures j == k
    {
      FirstBestIff(lines, cfg, st, j);
    }
  }

  /** The floor, aligned and guarded, if it drops a line at a profit. */
  function FloorDecision(lines: seq<LogLine>, cfg: Config, st: Counters): nat
    requires cfg.maxContext > 0
  {
    var m := MinKeep(|lines|, cfg.minKeepRatio);
    if m < |lines| && KeepBenefit(lines, cfg, st, m) > 0.0 then GuardedKeep(lines, cfg, m) else 0
  }

  /**
   The search in closed form: with at least two calls to come, the answer is the
   floor, aligned and guarded, if that floor drops a line at a profit, and 0 if not.
   */
  lemma ClosedForm(lines: seq<LogLine>, cfg: Config, st: Counters, keep: nat)
    requires cfg.maxContext > 0 && IsDecision(lines, cfg, st, keep)
    requires cfg.pCache >= 0.0 && cfg.v >= 0.0 && cfg.pInput >= 0.0 && cfg.qualityPenalty >= 0.0
    requires RemainingCalls(cfg, st) >= 2.0
    ensures keep == FloorDecision(lines, cfg, st)
  {
    hide KeepBenefit, GuardedKeep, RemainingCalls, MinKeep, FirstBest;
    var m := MinKeep(|lines|, cfg.minKeepRatio);
    assert cfg.qualityPenalty * cfg.pInput >= 0.0;
    if m < |lines| {
      assert Candidate(lines, cfg, m);
      if Candidate(lines, cfg, m + 1) {
        SlopeIsNotNegative(cfg, RemainingCalls(cfg, st), Tokens(lines) as real,
                           TailTokens(lines, m) as real, TailTokens(lines, m + 1) as real);
      }
      FirstBestIff(lines, cfg, st, m);
    } else {
      forall k: nat ensures !Candidate(lines, cfg, k) {}
    }
  }

  lemma OneRoundIff(cfg: Config, st: Counters)
    ensures Rounds(cfg, st) == 1.0 || Rounds(cfg, st) >= 2.0
    ensures Rounds(cfg, st) == 1.0 <==>
            cfg.eFixed == 1 || (cfg.eFixed <= 0 && cfg.baselineE in [2, 3] && cfg.baselineE - st.turnCount <= 1)
  {
  }

  lemma CallsAtLeastOne(cfg: Config, st: Counters)
    ensures CallsPerRound(cfg, st) >= 1.0
  {
  }

  /** When the closed form applies: the settings leave two rounds, or a round makes two calls. */
  lemma TwoCallsRemainIff(cfg: Config, st: Counters)
    ensures RemainingCalls(cfg, st) >= 2.0
       <==> !(cfg.eFixed == 1 || (cfg.eFixed <= 0 && cfg.baselineE in [2, 3] && cfg.baselineE - st.turnCount <= 1))
            || CallsPerRound(cfg, st) >= 2.0
  {
    var e, l := Rounds(cfg, st), CallsPerRound(cfg, st);
    OneRoundIff(cfg, st);
    hide Rounds;
    if e >= 2.0 {
      CallsAtLeastOne(cfg, st);
      AtLeastTwo(e, l);
    } else {
      assert RemainingCalls(cfg, st) == l;
    }
  }

  /** One call left and only the cache costs anything: every token kept is worth its cache price. */
  predicate OnlyCacheCosts(cfg: Config, st: Counters) {
    && cfg.maxContext > 0 && RemainingCalls(cfg, st) == 1.0 && cfg.pCache > 0.0
    && cfg.pInput == 0.0 && cfg.pOut == 0.0 && cfg.v == 0.0 && cfg.s == 0.0
  }

  lemma EveryTokenPays(lines: seq<LogLine>, cfg: Config, st: Counters, k: nat)
    requires OnlyCacheCosts(cfg, st) && 0 < k <= |lines|
    ensures KeepBenefit(lines, cfg, st, k) > 0.0 && KeepSlope(lines, cfg, st, k - 1, k) < 0.0
  {
    TailTokensGrow(lines, 0, k);
    assert InfoLoss(cfg, st) == 0.0;
    OnlyCache(cfg, InfoLoss(cfg, st), Tokens(lines) as real, TailTokens(lines, k - 1) as real, TailTokens(lines, k) as real);
  }

  lemma UserLinesAreAligned(lines: seq<LogLine>, cfg: Config, k: nat)
    requires 0 < k <= MaxKeep(|lines|, cfg.minKeepRatio) && k < |lines| && cfg.s == 0.0
    requires lines[|lines| - k].isUser
    ensures GuardedKeep(lines, cfg, k) == k
  {
    DropIsPositive(lines, k);
  }

  /** Below two calls the decision may keep more than the floor would. */
  lemma FloorIsNotAlwaysBest()
    ensures exists lines: seq<LogLine>, cfg: Config, st: Counters, keep: nat ::
      && cfg.maxContext > 0 && RemainingCalls(cfg, st) < 2.0
      && cfg.pCache >= 0.0 && cfg.v >= 0.0 && cfg.pInput >= 0.0 && cfg.qualityPenalty >= 0.0
      && IsDecision(lines, cfg, st, keep) && keep > FloorDecision(lines, cfg, st) > 0
  {
    hide FirstBest, KeepBenefit, KeepSlope, GuardedKeep;
    var line := LogLine(1, true);
    var lines := [line, line, line, line, line, line, line, line];
    var cfg := Config(0, 1, 1.0, 0.0, 0.0, 0.3, 0.0, 0.0, 0.25, 0.8, 0.03, 0.0, 1000);
    var st := Counters(0, 0, 0, 0);
    assert RemainingCalls(cfg, st) == 1.0;
    assert MinKeep(8, 0.25) == 3 && MaxKeep(8, 0.25) == 6 by {
      assert Share(8, 0.25) == 2 && Share(8, 0.75) == 6;
    }
    hide MinKeep, MaxKeep, RemainingCalls;
    EveryTokenPays(lines, cfg, st, 3);
    EveryTokenPays(lines, cfg, st, 6);
    UserLinesAreAligned(lines, cfg, 3);
    UserLinesAreAligned(lines, cfg, 6);
    forall k: nat | FirstBest(lines, cfg, st, k)
      ensures k == 6
    {
      FirstBestIff(lines, cfg, st, k);
      if k < 6 { EveryTokenPays(lines, cfg, st, k + 1); }
    }
    assert Candidate(lines, cfg, 6);
    assert IsDecision(lines, cfg, st, 6);
  }

  // ---------------------------------------------------------------- where the cut falls

  /** IsDecision fixes the answer: a decision that compacts comes from the first best candidate. */
  lemma DecisionHasFirstBest(lines: seq<LogLine>, cfg: Config, st: Counters, keep: nat) returns (best: nat)
    requires cfg.maxContext > 0 && IsDecision(lines, cfg, st, keep) && keep > 0
    ensures FirstBest(lines, cfg, st, best) && KeepBenefit(lines, cfg, st, best) > 0.0
    ensures Candidate(lines, cfg, best) && keep == GuardedKeep(lines, cfg, best)
  {
    var j: nat :| Candidate(lines, cfg, j);
    best := FirstBestBelow(lines, cfg, st, |lines|);
    assert FirstBest(lines, cfg, st, best);
  }

  lemma GuardedKeepIsPlaced(lines: seq<LogLine>, cfg: Config, k: nat, keep: nat)
    requires Candidate(lines, cfg, k) && 0 < k && keep == GuardedKeep(lines, cfg, k) && keep > 0
    ensures k <= keep <= MaxKeep(|lines|, cfg.minKeepRatio)
    ensures keep < |lines| ==> lines[|lines| - keep].isUser
    ensures forall i :: |lines| - keep < i <= |lines| - k ==> !lines[i].isUser
    ensures Tokens(lines) - TailTokens(lines, keep) >= MinDrop(cfg)
  {
  }

  /**
   Every compaction cuts at a user line, at the first one at or before the best
   cut, between the floor and the ceiling, and drops at least h_min tokens.
   */
  lemma CutPlacement(lines: seq<LogLine>, cfg: Config, st: Counters, keep: nat) returns (best: nat)
    requires cfg.maxContext > 0 && IsDecision(lines, cfg, st, keep) && keep > 0
    ensures FirstBest(lines, cfg, st, best)
    ensures MinKeep(|lines|, cfg.minKeepRatio) <= best <= keep <= MaxKeep(|lines|, cfg.minKeepRatio)
    ensures keep < |lines| ==> lines[|lines| - keep].isUser
    ensures forall i :: |lines| - keep < i <= |lines| - best ==> !lines[i].isUser
    ensures Tokens(lines) - TailTokens(lines, keep) >= MinDrop(cfg)
  {
    best := DecisionHasFirstBest(lines, cfg, st, keep);
    GuardedKeepIsPlaced(lines, cfg, best, keep);
  }

  // ---------------------------------------------------------------- keeping a ratio of the turns

  function Users(lines: seq<LogLine>): nat {
    if lines == [] then 0 else (if lines[0].isUser then 1 else 0) + Users(lines[1..])
  }

  lemma {:induction false} UsersSplit(lines: seq<LogLine>, i: nat)
    requires i <= |lines|
    ensures Users(lines) == Users(lines[..i]) + Users(lines[i..])
  {
    if i > 0 {
      assert lines[..i][1..] == lines[1..][..i - 1];
      UsersSplit(lines[1..], i - 1);
    } else {
      assert lines[0..] == lines;
    }
  }

  lemma UsersNext(lines: seq<LogLine>, i: nat)
    requires i < |lines|
    ensures Users(lines[i..]) == (if lines[i].isUser then 1 else 0) + Users(lines[i + 1..])
  {
    assert lines[i..][1..] == lines[i + 1..];
  }

  lemma NoUsers(lines: seq<LogLine>)
    ensures Users(lines[|lines|..]) == 0
  {
  }

  lemma UsersSuffix(lines: seq<LogLine>, i: nat, j: nat)
    requires i <= j <= |lines|
    ensures Users(lines[j..]) <= Users(lines[i..])
    ensures i < j && lines[i].isUser ==> Users(lines[j..]) < Users(lines[i..])
  {
    UsersSplit(lines[i..], j - i);
    assert lines[i..][j - i..] == lines[j..];
    if i < j {
      assert lines[i..][..j - i][0] == lines[i];
    }
  }

  /** How many of `users` turns to keep when the rounded ratio asks for `wanted`: at least one and at most all. */
  function TurnTarget(users: nat, wanted: int): (t: nat)
    ensures users > 0 ==> 0 < t <= users
  {
    var t := if wanted < 1 then 1 else wanted;
    if t > users then users else t
  }

  /** The kept suffix starts at a user line and holds exactly the wanted number of user lines. */
  ghost predicate IsTurnCut(lines: seq<LogLine>, wanted: int, keep: nat) {
    if Users(lines) == 0 then keep == 0
    else
      && 0 < keep <= |lines|
      && lines[|lines| - keep].isUser
      && Users(lines[|lines| - keep..]) == TurnTarget(Users(lines), wanted)
  }

  function RoundedTurns(users: nat, ratio: real): int {
    Share(users, ratio)
  }

  ghost predicate IsTurnKeep(lines: seq<LogLine>, ratio: real, keep: nat) {
    IsTurnCut(lines, RoundedTurns(Users(lines), ratio), keep)
  }

  /** There is only one such suffix, so any two ways of computing it agree. */
  lemma TurnCutIsUnique(lines: seq<LogLine>, wanted: int, k1: nat, k2: nat)
    requires IsTurnCut(lines, wanted, k1) && IsTurnCut(lines, wanted, k2)
    ensures k1 == k2
  {
    if Users(lines) > 0 && k1 != k2 {
      var n := |lines|;
      var i, j := n - (if k1 < k2 then k2 else k1), n - (if k1 < k2 then k1 else k2);
      assert Users(lines[i..]) == Users(lines[j..]);
      UsersSuffix(lines, i, j);
    }
  }

  /** C: collect the user line numbers forwards, then index the first turn to keep. */
  method TurnKeepForward(lines: seq<LogLine>, ratio: real) returns (keep: nat)
    ensures IsTurnKeep(lines, ratio, keep)
  {
    hide Users, RoundedTurns;
    var n := |lines|;
    var userIdx := new nat[n];
    var userCount := 0;
    var i := 0;
    assert lines[0..] == lines;
    while i < n
      invariant 0 <= userCount <= i <= n
      invariant userCount + Users(lines[i..]) == Users(lines)
      invariant forall j :: 0 <= j < userCount ==>
                  && userIdx[j] < i && lines[userIdx[j]].isUser
                  && j + Users(lines[userIdx[j]..]) == Users(lines)
    {
      UsersNext(lines, i);
      if lines[i].isUser {
        userIdx[userCount] := i;
        userCount := userCount + 1;
      }
      i := i + 1;
    }
    NoUsers(lines);
    if userCount == 0 { return 0; }
    var keepTurns := RoundedTurns(userCount, ratio);
    if keepTurns < 1 { keepTurns := 1; }
    var startTurn := userCount - keepTurns;
    if startTurn < 0 { startTurn := 0; }
    keep := n - userIdx[startTurn];
  }

  /** Rust: scan backwards until enough user lines have been passed; 0 stands for None. */
  method TurnKeepBackward(lines: seq<LogLine>, ratio: real) returns (keep: nat)
    ensures IsTurnKeep(lines, ratio, keep)
  {
    var n := |lines|;
    var totalTurns := 0;
    var i := 0;
    while i < n
      invariant 0 <= i <= n
      invariant totalTurns + Users(lines[i..]) == Users(lines)
    {
      assert lines[i..][1..] == lines[i + 1..];
      if lines[i].isUser { totalTurns := totalTurns + 1; }
      i := i + 1;
    }
    var t := RoundedTurns(totalTurns, ratio);
    if t < 0 { t := 0; }
    if t < 1 { t := 1; }
    var target := if t < totalTurns then t else totalTurns;
    keep := 0;
    var found := 0;
    while keep < n && found < target
      invariant 0 <= keep <= n
      invariant found == Users(lines[n - keep..]) <= target
      invariant keep > 0 && found == target ==> lines[n - keep].isUser
    {
      keep := keep + 1;
      assert lines[n - keep..][1..] == lines[n - keep + 1..];
      if lines[n - keep].isUser { found := found + 1; }
    }
    assert lines[n - n..] == lines;
  }

  /** The two implementations agree on every log and every ratio, negative ones included. */
  method TurnKeepsAgree(lines: seq<LogLine>, ratio: real) returns (forward: nat, backward: nat)
    ensures forward == backward
  {
    forward := TurnKeepForward(lines, ratio);
    backward := TurnKeepBackward(lines, ratio);
    TurnCutIsUnique(lines, RoundedTurns(Users(lines), ratio), forward, backward);
  }
}
