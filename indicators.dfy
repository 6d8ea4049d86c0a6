/**
 * The `StockScorer.score_*` methods: each turns one figure of the `info` map, or one
 * statistic of a price/dividend series, into a score out of 10, with 5.0 as the neutral
 * answer when the figure is missing or cannot be computed.
 */
module Indicators {
  import opened Wrappers
  import opened Financials
  import opened Bands

  /** The neutral score returned whenever an indicator has nothing to go on. */
  const Neutral: real := 5.0

  /**
   * An info-based indicator's result: a score, or the `TypeError` the source raises when a
   * field holds a string other than "N/A" and reaches a numeric comparison.
   */
  datatype Outcome = Score(value: real) | Raises

  // ---------------------------------------------------------------- band tables

  const Momentum6MBands := Table([Step(30.0, 10.0), Step(20.0, 9.0), Step(15.0, 8.0), Step(10.0, 7.0), Step(5.0, 6.0),
                                  Step(0.0, 5.5), Step(-5.0, 4.5), Step(-10.0, 3.5), Step(-15.0, 2.5)], 1.0)
  const Momentum3MBands := Table([Step(20.0, 10.0), Step(15.0, 9.0), Step(10.0, 8.0), Step(5.0, 7.0), Step(2.0, 6.0),
                                  Step(0.0, 5.5), Step(-5.0, 4.0), Step(-10.0, 3.0)], 1.5)
  const VolumeBands := Table([Step(50.0, 9.0), Step(30.0, 8.0), Step(15.0, 7.0), Step(0.0, 6.0), Step(-15.0, 5.0),
                              Step(-30.0, 4.0)], 3.0)
  const PEBands := Table([Step(10.0, 10.0), Step(15.0, 9.0), Step(20.0, 7.5), Step(25.0, 6.0), Step(30.0, 4.5),
                          Step(40.0, 3.0)], 1.0)
  const PEGBands := Table([Step(0.5, 10.0), Step(1.0, 9.0), Step(1.5, 7.0), Step(2.0, 5.0), Step(2.5, 3.5)], 1.5)
  const RevenueGrowthBands := Table([Step(30.0, 10.0), Step(20.0, 9.0), Step(15.0, 8.0), Step(10.0, 7.0), Step(5.0, 6.0),
                                     Step(0.0, 5.0), Step(-5.0, 3.5)], 1.0)
  const ProfitMarginBands := Table([Step(25.0, 10.0), Step(20.0, 9.0), Step(15.0, 8.0), Step(10.0, 7.0), Step(5.0, 6.0),
                                    Step(0.0, 5.0)], 2.0)
  const OperatingMarginBands := Table([Step(30.0, 10.0), Step(20.0, 9.0), Step(15.0, 8.0), Step(10.0, 7.0), Step(5.0, 6.0),
                                       Step(0.0, 5.0)], 2.5)
  const ROEBands := Table([Step(25.0, 10.0), Step(20.0, 9.0), Step(15.0, 8.0), Step(10.0, 7.0), Step(5.0, 6.0),
                           Step(0.0, 5.0)], 2.0)
  const ROABands := Table([Step(15.0, 10.0), Step(10.0, 9.0), Step(7.0, 8.0), Step(5.0, 7.0), Step(3.0, 6.0),
                           Step(0.0, 5.0)], 2.0)
  const DebtToEquityBands := Table([Step(20.0, 10.0), Step(40.0, 9.0), Step(60.0, 8.0), Step(80.0, 7.0), Step(100.0, 6.0),
                                    Step(150.0, 4.5), Step(200.0, 3.0)], 1.5)
  const DebtToAssetsBands := Table([Step(20.0, 10.0), Step(30.0, 9.0), Step(40.0, 8.0), Step(50.0, 7.0), Step(60.0, 6.0),
                                    Step(70.0, 4.5)], 2.5)
  const CurrentRatioBands := Table([Step(2.5, 10.0), Step(2.0, 9.0), Step(1.5, 8.0), Step(1.2, 7.0), Step(1.0, 6.0),
                                    Step(0.8, 4.0)], 2.0)
  const FreeCashFlowBands := Table([Step(10_000_000_000.0, 10.0), Step(5_000_000_000.0, 9.0), Step(1_000_000_000.0, 8.0),
                                    Step(500_000_000.0, 7.0), Step(100_000_000.0, 6.0), Step(0.0, 5.0)], 2.0)
  const DividendYieldBands := Table([Step(5.0, 10.0), Step(4.0, 9.0), Step(3.0, 8.0), Step(2.0, 7.0), Step(1.0, 6.0)], 5.0)
  const DividendGrowthBands := Table([Step(15.0, 10.0), Step(10.0, 9.0), Step(7.0, 8.0), Step(5.0, 7.0), Step(3.0, 6.0),
                                      Step(0.0, 5.5)], 3.0)
  const PriceToBookBands := Table([Step(1.0, 10.0), Step(1.5, 9.0), Step(2.0, 8.0), Step(3.0, 7.0), Step(4.0, 6.0),
                                   Step(5.0, 4.5)], 2.5)
  const BetaBands := Table([Step(0.5, 10.0), Step(0.8, 9.0), Step(1.0, 8.0), Step(1.2, 7.0), Step(1.5, 6.0),
                            Step(2.0, 4.0)], 2.0)

  /** A higher-is-better chain on the 1..10 scale: thresholds fall, scores never rise. */
  predicate RisingScale(t: Table)
  {
    Ranked(t) && BoundsDecreasing(t) && Within(t, 1.0, 10.0)
  }

  /** A lower-is-better chain on the 1..10 scale: thresholds rise, scores never rise. */
  predicate FallingScale(t: Table)
  {
    Ranked(t) && BoundsIncreasing(t) && Within(t, 1.0, 10.0)
  }

  lemma RisingFromStepwise(t: Table)
    requires RankedStepwise(t) && DecreasingStepwise(t) && Within(t, 1.0, 10.0)
    ensures RisingScale(t)
  {
    RankedFromStepwise(t);
    DecreasingFromStepwise(t);
  }

  lemma FallingFromStepwise(t: Table)
    requires RankedStepwise(t) && IncreasingStepwise(t) && Within(t, 1.0, 10.0)
    ensures FallingScale(t)
  {
    RankedFromStepwise(t);
    IncreasingFromStepwise(t);
  }

  // Every table is ordered the way its comparisons read: higher-is-better chains have
  // strictly decreasing thresholds, lower-is-better ones strictly increasing thresholds,
  // scores never rise down a chain, and every score lies in [1, 10].

  lemma Momentum6MBandsWellFormed()
    ensures RisingScale(Momentum6MBands)
  {
    RisingFromStepwise(Momentum6MBands);
  }

  lemma Momentum3MBandsWellFormed()
    ensures RisingScale(Momentum3MBands)
  {
    RisingFromStepwise(Momentum3MBands);
  }

  lemma VolumeBandsWellFormed()
    ensures RisingScale(VolumeBands)
  {
    RisingFromStepwise(VolumeBands);
  }

  lemma RevenueGrowthBandsWellFormed()
    ensures RisingScale(RevenueGrowthBands)
  {
    RisingFromStepwise(RevenueGrowthBands);
  }

  lemma ProfitMarginBandsWellFormed()
    ensures RisingScale(ProfitMarginBands)
  {
    RisingFromStepwise(ProfitMarginBands);
  }

  lemma OperatingMarginBandsWellFormed()
    ensures RisingScale(OperatingMarginBands)
  {
    RisingFromStepwise(OperatingMarginBands);
  }

  lemma ROEBandsWellFormed()
    ensures RisingScale(ROEBands)
  {
    RisingFromStepwise(ROEBands);
  }

  lemma ROABandsWellFormed()
    ensures RisingScale(ROABands)
  {
    RisingFromStepwise(ROABands);
  }

  lemma CurrentRatioBandsWellFormed()
    ensures RisingScale(CurrentRatioBands)
  {
    RisingFromStepwise(CurrentRatioBands);
  }

  lemma FreeCashFlowBandsWellFormed()
    ensures RisingScale(FreeCashFlowBands)
  {
    RisingFromStepwise(FreeCashFlowBands);
  }

  lemma DividendYieldBandsWellFormed()
    ensures RisingScale(DividendYieldBands)
  {
    RisingFromStepwise(DividendYieldBands);
  }

  lemma DividendGrowthBandsWellFormed()
    ensures RisingScale(DividendGrowthBands)
  {
    RisingFromStepwise(DividendGrowthBands);
  }

  lemma PEBandsWellFormed()
    ensures FallingScale(PEBands)
  {
    FallingFromStepwise(PEBands);
  }

  lemma PEGBandsWellFormed()
    ensures FallingScale(PEGBands)
  {
    FallingFromStepwise(PEGBands);
  }

  lemma DebtToEquityBandsWellFormed()
    ensures FallingScale(DebtToEquityBands)
  {
    FallingFromStepwise(DebtToEquityBands);
  }

  lemma DebtToAssetsBandsWellFormed()
    ensures FallingScale(DebtToAssetsBands)
  {
    FallingFromStepwise(DebtToAssetsBands);
  }

  lemma PriceToBookBandsWellFormed()
    ensures FallingScale(PriceToBookBands)
  {
    FallingFromStepwise(PriceToBookBands);
  }

  lemma BetaBandsWellFormed()
    ensures FallingScale(BetaBands)
  {
    FallingFromStepwise(BetaBands);
  }

  // ---------------------------------------------------------------- price history

  /** Percent change from the first to the last close (`score_momentum_*`). */
  function Performance(bars: seq<Bar>): real
    requires |bars| >= 2 && bars[0].close != 0.0
  {
    (bars[|bars| - 1].close - bars[0].close) / bars[0].close * 100.0
  }

  /**
   * `score_momentum_6m` / `score_momentum_3m` over the given history. Fewer than two
   * samples is neutral. A first close of 0 makes numpy divide by zero: +inf (top band)
   * when the last close is positive, -inf or NaN (the final `else`) otherwise.
   */
  function ScoreMomentum(t: Table, bars: seq<Bar>): (r: real)
    requires t.steps != []
    ensures |bars| < 2 ==> r == Neutral
    ensures |bars| >= 2 ==> r in Scores(t)
  {
    if |bars| < 2 then Neutral
    else if bars[0].close == 0.0 then
      (if bars[|bars| - 1].close > 0.0 then t.steps[0].score else t.otherwise)
    else Above(t, Performance(bars))
  }

  function ScoreMomentum6M(market: Market): (r: real)
    ensures 1.0 <= r <= 10.0
  {
    Momentum6MBandsWellFormed();
    ScoresWithin(Momentum6MBands, 1.0, 10.0);
    ScoreMomentum(Momentum6MBands, market.sixMonths)
  }

  function ScoreMomentum3M(market: Market): (r: real)
    ensures 1.0 <= r <= 10.0
  {
    Momentum3MBandsWellFormed();
    ScoresWithin(Momentum3MBands, 1.0, 10.0);
    ScoreMomentum(Momentum3MBands, market.threeMonths)
  }

  /** Sum over k in [from, |closes|) of max(close_k - close_(k-1), 0): the gains of `diff()`. */
  function GainSum(closes: seq<real>, from: nat): (r: real)
    requires 1 <= from <= |closes|
    decreases |closes| - from
    ensures r >= 0.0
  {
    if from == |closes| then 0.0
    else
      var d := closes[from] - closes[from - 1];
      (if d > 0.0 then d else 0.0) + GainSum(closes, from + 1)
  }

  /** Sum over k in [from, |closes|) of max(close_(k-1) - close_k, 0): the losses of `diff()`. */
  function LossSum(closes: seq<real>, from: nat): (r: real)
    requires 1 <= from <= |closes|
    decreases |closes| - from
    ensures r >= 0.0
  {
    if from == |closes| then 0.0
    else
      var d := closes[from] - closes[from - 1];
      (if d < 0.0 then -d else 0.0) + LossSum(closes, from + 1)
  }

  function Closes(bars: seq<Bar>): (cs: seq<real>)
    ensures |cs| == |bars|
  {
    seq(|bars|, i requires 0 <= i < |bars| => bars[i].close)
  }

  /**
   * The last value of the 14-period RSI: `100 - 100 / (1 + gain/loss)` over the means of
   * the last 14 gains and losses. A zero mean loss gives `gain/0`: +inf (RSI 100) when
   * there was a gain, NaN (None) when there was neither.
   */
  function Rsi(closes: seq<real>): (r: Option<real>)
    requires |closes| >= 15
    ensures r.Some? ==> 0.0 <= r.value <= 100.0
  {
    var gain := GainSum(closes, |closes| - 14) / 14.0;
    var loss := LossSum(closes, |closes| - 14) / 14.0;
    if loss == 0.0 then
      (if gain == 0.0 then None else Some(100.0))
    else
      var rs := gain / loss;
      assert rs >= 0.0;
      assert 100.0 / (1.0 + rs) <= 100.0 by {
        assert 100.0 <= 100.0 * (1.0 + rs);
      }
      Some(100.0 - 100.0 / (1.0 + rs))
  }

  function Max(a: real, b: real): real
  {
    if a >= b then a else b
  }

  /** The piecewise-linear "potential rebound" mapping of an RSI value to a score. */
  function RsiScore(rsi: real): real
  {
    if rsi < 30.0 then 9.0 + (30.0 - rsi) / 30.0
    else if rsi < 40.0 then 7.0 + (40.0 - rsi) / 10.0 * 2.0
    else if rsi < 50.0 then 6.0 + (50.0 - rsi) / 10.0
    else if rsi < 60.0 then 5.0
    else if rsi < 70.0 then 4.0 - (rsi - 60.0) / 10.0
    else Max(0.0, 3.0 - (rsi - 70.0) / 10.0)
  }

  /**
   * On the RSI's range the score stays in [0, 10], never rises as the RSI rises, is above 9
   * exactly when the stock is oversold (RSI < 30) and at most 3 once it is overbought.
   */
  lemma RsiScoreShape(r: real, s: real)
    requires 0.0 <= r <= s <= 100.0
    ensures 0.0 <= RsiScore(r) <= 10.0
    ensures RsiScore(s) <= RsiScore(r)
    ensures RsiScore(r) > 9.0 <==> r < 30.0
    ensures r >= 70.0 ==> RsiScore(r) <= 3.0
  {
  }

  /** `score_rsi`: fewer than 15 samples, or an undefined RSI, is neutral. */
  function ScoreRsi(market: Market): (r: real)
    ensures 0.0 <= r <= 10.0
    ensures |market.threeMonths| < 15 ==> r == Neutral
    ensures |market.threeMonths| >= 15 && Rsi(Closes(market.threeMonths)).None? ==> r == Neutral
    ensures |market.threeMonths| >= 15 && Rsi(Closes(market.threeMonths)).Some? ==>
              r == RsiScore(Rsi(Closes(market.threeMonths)).value)
  {
    var bars := market.threeMonths;
    if |bars| < 15 then Neutral
    else
      match Rsi(Closes(bars))
      case None => Neutral
      case Some(rsi) =>
        RsiScoreShape(rsi, rsi);
        RsiScore(rsi)
  }

  /** Mean volume of the last 10 samples. */
  function RecentVolume(bars: seq<Bar>): real
    requires |bars| >= 20
  {
    Mean(Volumes(bars[|bars| - 10..]))
  }

  /** Mean volume of the (up to) 20 samples before the last 10. */
  function OlderVolume(bars: seq<Bar>): real
    requires |bars| >= 20
  {
    var n := |bars|;
    Mean(Volumes(bars[if n >= 30 then n - 30 else 0..n - 10]))
  }

  /** The relative change from `older` to `recent`, in percent. */
  function Change(recent: real, older: real): real
    requires older != 0.0
  {
    (recent - older) / older * 100.0
  }

  /**
   * `score_volume_trend`: mean volume of the last 10 samples against the mean of the
   * (up to) 20 before them. Fewer than 20 samples, or an older mean of 0, is neutral.
   */
  function ScoreVolumeTrend(market: Market): (r: real)
    ensures 1.0 <= r <= 10.0
    ensures |market.threeMonths| < 20 ==> r == Neutral
    ensures |market.threeMonths| >= 20 && OlderVolume(market.threeMonths) == 0.0 ==> r == Neutral
    ensures |market.threeMonths| >= 20 && OlderVolume(market.threeMonths) != 0.0 ==>
              r == Above(VolumeBands, Change(RecentVolume(market.threeMonths), OlderVolume(market.threeMonths)))
  {
    VolumeBandsWellFormed();
    ScoresWithin(VolumeBands, 1.0, 10.0);
    var bars := market.threeMonths;
    if |bars| < 20 then Neutral
    else
      var recent := RecentVolume(bars);
      var older := OlderVolume(bars);
      if older == 0.0 then Neutral
      else Above(VolumeBands, Change(recent, older))
  }

  /** Sum of the 252 most recent dividends, or of all of them when there are fewer. */
  function RecentDividends(ds: seq<real>): real
  {
    if |ds| >= 252 then Sum(ds[|ds| - 252..]) else Sum(ds)
  }

  /** Sum of the 252 dividends before the most recent 252, or 0 when there are fewer than 504. */
  function OlderDividends(ds: seq<real>): real
  {
    if |ds| >= 504 then Sum(ds[|ds| - 504..|ds| - 252]) else 0.0
  }

  /** `score_dividend_growth`: fewer than 2 dividends, or an older window summing to 0, is neutral. */
  function ScoreDividendGrowth(market: Market): (r: real)
    ensures 1.0 <= r <= 10.0
    ensures |market.dividends| < 2 ==> r == Neutral
    ensures |market.dividends| >= 2 && OlderDividends(market.dividends) == 0.0 ==> r == Neutral
    ensures |market.dividends| >= 2 && OlderDividends(market.dividends) != 0.0 ==>
              r == Above(DividendGrowthBands, Change(RecentDividends(market.dividends), OlderDividends(market.dividends)))
  {
    DividendGrowthBandsWellFormed();
    ScoresWithin(DividendGrowthBands, 1.0, 10.0);
    var ds := market.dividends;
    if |ds| < 2 then Neutral
    else
      var recent := RecentDividends(ds);
      var older := OlderDividends(ds);
      if older == 0.0 then Neutral
      else Above(DividendGrowthBands, Change(recent, older))
  }

  /** With fewer than 504 dividend events the older window is empty, so the score is always neutral. */
  lemma ShortDividendHistoryIsNeutral(market: Market)
    requires |market.dividends| < 504
    ensures ScoreDividendGrowth(market) == Neutral
  {
  }

  // ---------------------------------------------------------------- info fields

  /** A field read with `safe_get` and banded: "N/A" is neutral, other strings raise. */
  function Banded(reading: Reading, band: real -> real): Outcome
  {
    match reading
    case Absent => Score(Neutral)
    case NotANumber => Raises
    case Number(x) => Score(band(x))
  }

  /**
   * `score_pe_ratio` as written: `safe_get('trailingPE') or safe_get('forwardPE')`. Because
   * a missing trailing P/E reads as the truthy "N/A", forwardPE is consulted only when
   * trailingPE is present and falsy (0 or ""). A ratio <= 0 is neutral.
   */
  function ScorePEAsWritten(info: Info): (r: Outcome)
    ensures r.Score? ==> r.value in Scores(PEBands) + {Neutral}
    ensures r.Score? ==> 1.0 <= r.value <= 10.0
  {
    PEBandsWellFormed();
    ScoresWithin(PEBands, 1.0, 10.0);
    var trailing := SafeGet(info, "trailingPE");
    var pe := if Truthy(trailing) then trailing else SafeGet(info, "forwardPE");
    match Classify(pe)
    case Absent => Score(Neutral)
    case NotANumber => Raises
    case Number(x) => if x <= 0.0 then Score(Neutral) else Score(Below(PEBands, x))
  }

  /**
   * `score_pe_ratio` as evidently intended (and as the valuation panel reads P/E): the
   * trailing P/E when it is present, non-`None` and non-zero, else the forward P/E.
   */
  function ScorePE(info: Info): (r: Outcome)
    ensures r.Score? ==> r.value in Scores(PEBands) + {Neutral}
    ensures r.Score? ==> 1.0 <= r.value <= 10.0
  {
    PEBandsWellFormed();
    ScoresWithin(PEBands, 1.0, 10.0);
    var trailing := Get(info, "trailingPE");
    var pe := if Truthy(trailing) then trailing else Get(info, "forwardPE");
    match Classify(pe)
    case Absent => Score(Neutral)
    case NotANumber => Raises
    case Number(x) => if x <= 0.0 then Score(Neutral) else Score(Below(PEBands, x))
  }

  /** `score_peg_ratio`: a ratio <= 0 is neutral. */
  function ScorePEG(info: Info): (r: Outcome)
    ensures r.Score? ==> r.value in Scores(PEGBands) + {Neutral}
    ensures r.Score? ==> 1.0 <= r.value <= 10.0
    ensures Get(info, "pegRatio").Num? && Get(info, "pegRatio").x > 0.0 ==>
              r == Score(Below(PEGBands, Get(info, "pegRatio").x))
  {
    PEGBandsWellFormed();
    ScoresWithin(PEGBands, 1.0, 10.0);
    Banded(Read(info, "pegRatio"), x => if x <= 0.0 then Neutral else Below(PEGBands, x))
  }

  /** `score_revenue_growth`: the fraction is banded as a percentage. */
  function ScoreRevenueGrowth(info: Info): (r: Outcome)
    ensures r.Score? ==> r.value in Scores(RevenueGrowthBands) + {Neutral}
    ensures r.Score? ==> 1.0 <= r.value <= 10.0
  {
    RevenueGrowthBandsWellFormed();
    ScoresWithin(RevenueGrowthBands, 1.0, 10.0);
    Banded(Read(info, "revenueGrowth"), g => Above(RevenueGrowthBands, g * 100.0))
  }

  function ScoreProfitMargins(info: Info): (r: Outcome)
    ensures r.Score? ==> r.value in Scores(ProfitMarginBands) + {Neutral}
    ensures r.Score? ==> 1.0 <= r.value <= 10.0
    ensures Get(info, "profitMargins").Num? ==>
              r == Score(Above(ProfitMarginBands, Get(info, "profitMargins").x * 100.0))
  {
    ProfitMarginBandsWellFormed();
    ScoresWithin(ProfitMarginBands, 1.0, 10.0);
    Banded(Read(info, "profitMargins"), m => Above(ProfitMarginBands, m * 100.0))
  }

  function ScoreOperatingMargin(info: Info): (r: Outcome)
    ensures r.Score? ==> r.value in Scores(OperatingMarginBands) + {Neutral}
    ensures r.Score? ==> 1.0 <= r.value <= 10.0
    ensures Get(info, "operatingMargins").Num? ==>
              r == Score(Above(OperatingMarginBands, Get(info, "operatingMargins").x * 100.0))
  {
    OperatingMarginBandsWellFormed();
    ScoresWithin(OperatingMarginBands, 1.0, 10.0);
    Banded(Read(info, "operatingMargins"), m => Above(OperatingMarginBands, m * 100.0))
  }

  function ScoreROE(info: Info): (r: Outcome)
    ensures r.Score? ==> r.value in Scores(ROEBands) + {Neutral}
    ensures r.Score? ==> 1.0 <= r.value <= 10.0
    ensures Get(info, "returnOnEquity").Num? ==>
              r == Score(Above(ROEBands, Get(info, "returnOnEquity").x * 100.0))
  {
    ROEBandsWellFormed();
    ScoresWithin(ROEBands, 1.0, 10.0);
    Banded(Read(info, "returnOnEquity"), x => Above(ROEBands, x * 100.0))
  }

  /** `score_roa`: defined by the scorer but referenced by no weight profile. */
  function ScoreROA(info: Info): (r: Outcome)
    ensures r.Score? ==> r.value in Scores(ROABands) + {Neutral}
    ensures r.Score? ==> 1.0 <= r.value <= 10.0
    ensures Get(info, "returnOnAssets").Num? ==>
              r == Score(Above(ROABands, Get(info, "returnOnAssets").x * 100.0))
  {
    ROABandsWellFormed();
    ScoresWithin(ROABands, 1.0, 10.0);
    Banded(Read(info, "returnOnAssets"), x => Above(ROABands, x * 100.0))
  }

  function ScoreDebtToEquity(info: Info): (r: Outcome)
    ensures r.Score? ==> r.value in Scores(DebtToEquityBands) + {Neutral}
    ensures r.Score? ==> 1.0 <= r.value <= 10.0
    ensures Get(info, "debtToEquity").Num? ==>
              r == Score(Below(DebtToEquityBands, Get(info, "debtToEquity").x))
  {
    DebtToEquityBandsWellFormed();
    ScoresWithin(DebtToEquityBands, 1.0, 10.0);
    Banded(Read(info, "debtToEquity"), x => Below(DebtToEquityBands, x))
  }

  /**
   * `score_debt_to_assets`: total debt over total assets, in percent. Either field missing,
   * zero assets, or any error (a string field) is neutral: this one runs under `try`.
   */
  function ScoreDebtToAssets(info: Info): (r: real)
    ensures r in Scores(DebtToAssetsBands) + {Neutral}
    ensures 1.0 <= r <= 10.0
    ensures Get(info, "totalDebt").Num? && Get(info, "totalAssets").Num? && Get(info, "totalAssets").x != 0.0 ==>
              r == Below(DebtToAssetsBands, Get(info, "totalDebt").x / Get(info, "totalAssets").x * 100.0)
  {
    DebtToAssetsBandsWellFormed();
    ScoresWithin(DebtToAssetsBands, 1.0, 10.0);
    var debt := SafeGet(info, "totalDebt");
    var assets := SafeGet(info, "totalAssets");
    if debt == NotAvailable || assets == NotAvailable || assets == Num(0.0) then Neutral
    else if debt.Num? && assets.Num? then Below(DebtToAssetsBands, debt.x / assets.x * 100.0)
    else Neutral
  }

  function ScoreCurrentRatio(info: Info): (r: Outcome)
    ensures r.Score? ==> r.value in Scores(CurrentRatioBands) + {Neutral}
    ensures r.Score? ==> 1.0 <= r.value <= 10.0
    ensures Get(info, "currentRatio").Num? ==>
              r == Score(Above(CurrentRatioBands, Get(info, "currentRatio").x))
  {
    CurrentRatioBandsWellFormed();
    ScoresWithin(CurrentRatioBands, 1.0, 10.0);
    Banded(Read(info, "currentRatio"), x => Above(CurrentRatioBands, x))
  }

  /** `score_free_cash_flow`: banded on the dollar amount. */
  function ScoreFreeCashFlow(info: Info): (r: Outcome)
    ensures r.Score? ==> r.value in Scores(FreeCashFlowBands) + {Neutral}
    ensures r.Score? ==> 1.0 <= r.value <= 10.0
    ensures Get(info, "freeCashflow").Num? ==>
              r == Score(Above(FreeCashFlowBands, Get(info, "freeCashflow").x))
  {
    FreeCashFlowBandsWellFormed();
    ScoresWithin(FreeCashFlowBands, 1.0, 10.0);
    Banded(Read(info, "freeCashflow"), x => Above(FreeCashFlowBands, x))
  }

  /** `score_dividend_yield`: a missing or zero yield is neutral, not penalised. */
  function ScoreDividendYield(info: Info): (r: Outcome)
    ensures r.Score? ==> r.value in Scores(DividendYieldBands) + {Neutral}
    ensures r.Score? ==> 1.0 <= r.value <= 10.0
    ensures Get(info, "dividendYield").Num? && Get(info, "dividendYield").x != 0.0 ==>
              r == Score(Above(DividendYieldBands, Get(info, "dividendYield").x * 100.0))
  {
    DividendYieldBandsWellFormed();
    ScoresWithin(DividendYieldBands, 1.0, 10.0);
    Banded(Read(info, "dividendYield"), y => if y == 0.0 then Neutral else Above(DividendYieldBands, y * 100.0))
  }

  /** `score_price_to_book`: a ratio <= 0 is neutral. */
  function ScorePriceToBook(info: Info): (r: Outcome)
    ensures r.Score? ==> r.value in Scores(PriceToBookBands) + {Neutral}
    ensures r.Score? ==> 1.0 <= r.value <= 10.0
    ensures Get(info, "priceToBook").Num? && Get(info, "priceToBook").x > 0.0 ==>
              r == Score(Below(PriceToBookBands, Get(info, "priceToBook").x))
  {
    PriceToBookBandsWellFormed();
    ScoresWithin(PriceToBookBands, 1.0, 10.0);
    Banded(Read(info, "priceToBook"), x => if x <= 0.0 then Neutral else Below(PriceToBookBands, x))
  }

  function ScoreBeta(info: Info): (r: Outcome)
    ensures r.Score? ==> r.value in Scores(BetaBands) + {Neutral}
    ensures r.Score? ==> 1.0 <= r.value <= 10.0
  {
    BetaBandsWellFormed();
    ScoresWithin(BetaBands, 1.0, 10.0);
    Banded(Read(info, "beta"), x => Below(BetaBands, x))
  }

  // ---------------------------------------------------------------- properties of the indicators

  /** Every field-based indicator is neutral when its field is missing or `None`. */
  lemma MissingFiguresAreNeutral(info: Info)
    ensures Get(info, "trailingPE") == Null && Get(info, "forwardPE") == Null ==> ScorePE(info) == Score(Neutral)
    ensures Get(info, "pegRatio") == Null ==> ScorePEG(info) == Score(Neutral)
    ensures Get(info, "revenueGrowth") == Null ==> ScoreRevenueGrowth(info) == Score(Neutral)
    ensures Get(info, "profitMargins") == Null ==> ScoreProfitMargins(info) == Score(Neutral)
    ensures Get(info, "operatingMargins") == Null ==> ScoreOperatingMargin(info) == Score(Neutral)
    ensures Get(info, "returnOnEquity") == Null ==> ScoreROE(info) == Score(Neutral)
    ensures Get(info, "returnOnAssets") == Null ==> ScoreROA(info) == Score(Neutral)
    ensures Get(info, "debtToEquity") == Null ==> ScoreDebtToEquity(info) == Score(Neutral)
    ensures Get(info, "totalDebt") == Null || Get(info, "totalAssets") == Null ==> ScoreDebtToAssets(info) == Neutral
    ensures Get(info, "currentRatio") == Null ==> ScoreCurrentRatio(info) == Score(Neutral)
    ensures Get(info, "freeCashflow") == Null ==> ScoreFreeCashFlow(info) == Score(Neutral)
    ensures Get(info, "dividendYield") == Null ==> ScoreDividendYield(info) == Score(Neutral)
    ensures Get(info, "priceToBook") == Null ==> ScorePriceToBook(info) == Score(Neutral)
    ensures Get(info, "beta") == Null ==> ScoreBeta(info) == Score(Neutral)
  {
  }

  /** P/E, PEG and P/B ratios at or below zero are neutral, as is a zero dividend yield. */
  lemma NonPositiveRatiosAreNeutral(info: Info)
    ensures ((Get(info, "trailingPE") == Num(0.0) || Get(info, "trailingPE") == Null)
             && Get(info, "forwardPE").Num? && Get(info, "forwardPE").x <= 0.0) ==> ScorePE(info) == Score(Neutral)
    ensures Get(info, "trailingPE").Num? && Get(info, "trailingPE").x < 0.0 ==> ScorePE(info) == Score(Neutral)
    ensures Get(info, "pegRatio").Num? && Get(info, "pegRatio").x <= 0.0 ==> ScorePEG(info) == Score(Neutral)
    ensures Get(info, "priceToBook").Num? && Get(info, "priceToBook").x <= 0.0 ==> ScorePriceToBook(info) == Score(Neutral)
    ensures Get(info, "dividendYield") == Num(0.0) ==> ScoreDividendYield(info) == Score(Neutral)
  {
  }

  /**
   * As written, a missing trailing P/E is never replaced by the forward one: the P/E score
   * is then neutral whatever `forwardPE` holds. The forward P/E is consulted only when the
   * trailing one is present and falsy.
   */
  lemma PEFallbackAsWritten(info: Info)
    ensures Get(info, "trailingPE") == Null ==> ScorePEAsWritten(info) == Score(Neutral)
    ensures Get(info, "trailingPE") == Num(0.0) ==> ScorePEAsWritten(info) == ScorePE(info)
  {
  }

  /** The input that shows it: a quote carrying only a forward P/E of 12. */
  lemma PEFallbackCounterexample()
    ensures ScorePEAsWritten(map["forwardPE" := Num(12.0)]) == Score(Neutral)
    ensures ScorePE(map["forwardPE" := Num(12.0)]) == Score(9.0)
  {
    var info := map["forwardPE" := Num(12.0)];
    assert Get(info, "trailingPE") == Null;
    PEBandsWellFormed();
    BelowBand(PEBands, 1, 12.0);
  }

  /**
   * The corrected P/E score uses the trailing P/E when it is a non-zero number, and falls
   * back to the forward P/E when the trailing one is missing, `None` or zero. On a present,
   * non-zero trailing P/E it agrees with the code as written.
   */
  lemma PEFallback(info: Info, x: real)
    ensures Get(info, "trailingPE") == Num(x) && x > 0.0 ==> ScorePE(info) == Score(Below(PEBands, x))
    ensures Get(info, "trailingPE") == Num(x) && x != 0.0 ==> ScorePE(info) == ScorePEAsWritten(info)
    ensures ((Get(info, "trailingPE") == Null || Get(info, "trailingPE") == Num(0.0))
             && Get(info, "forwardPE") == Num(x) && x > 0.0) ==> ScorePE(info) == Score(Below(PEBands, x))
  {
  }

  /** A higher P/E never scores higher (trailing P/E present and positive in both quotes). */
  lemma ScorePEAntitone(a: Info, b: Info, x: real, y: real)
    requires Get(a, "trailingPE") == Num(x) && Get(b, "trailingPE") == Num(y) && 0.0 < x <= y
    ensures ScorePE(b).Score? && ScorePE(a).Score? && ScorePE(b).value <= ScorePE(a).value
  {
    PEBandsWellFormed();
    BelowAntitone(PEBands, x, y);
  }

  /** The P/E score the engine uses, as written, is antitone in a positive trailing P/E too. */
  lemma ScorePEAsWrittenAntitone(a: Info, b: Info, x: real, y: real)
    requires Get(a, "trailingPE") == Num(x) && Get(b, "trailingPE") == Num(y) && 0.0 < x <= y
    ensures ScorePEAsWritten(b).Score? && ScorePEAsWritten(a).Score?
    ensures ScorePEAsWritten(b).value <= ScorePEAsWritten(a).value
  {
    PEFallback(a, x);
    PEFallback(b, y);
    ScorePEAntitone(a, b, x, y);
  }

  /** A numeric revenue growth is banded as a percentage. */
  lemma ScoreRevenueGrowthOf(info: Info, x: real)
    requires Get(info, "revenueGrowth") == Num(x)
    ensures ScoreRevenueGrowth(info) == Score(Above(RevenueGrowthBands, x * 100.0))
  {
  }

  lemma RevenueGrowthBandMonotone(x: real, y: real)
    requires x <= y
    ensures Above(RevenueGrowthBands, x * 100.0) <= Above(RevenueGrowthBands, y * 100.0)
  {
    var px, py := x * 100.0, y * 100.0;
    assert px <= py;
    RevenueGrowthBandsWellFormed();
    AboveMonotone(RevenueGrowthBands, px, py);
  }

  /** Faster revenue growth never scores lower. */
  lemma ScoreRevenueGrowthMonotone(a: Info, b: Info, x: real, y: real)
    requires Get(a, "revenueGrowth") == Num(x) && Get(b, "revenueGrowth") == Num(y) && x <= y
    ensures ScoreRevenueGrowth(a).Score? && ScoreRevenueGrowth(b).Score?
    ensures ScoreRevenueGrowth(a).value <= ScoreRevenueGrowth(b).value
  {
    ScoreRevenueGrowthOf(a, x);
    ScoreRevenueGrowthOf(b, y);
    RevenueGrowthBandMonotone(x, y);
  }

  /** A higher beta never scores higher. */
  lemma ScoreBetaAntitone(a: Info, b: Info, x: real, y: real)
    requires Get(a, "beta") == Num(x) && Get(b, "beta") == Num(y) && x <= y
    ensures ScoreBeta(a).Score? && ScoreBeta(b).Score? && ScoreBeta(b).value <= ScoreBeta(a).value
  {
    BetaBandsWellFormed();
    BelowAntitone(BetaBands, x, y);
  }

  /** A higher positive PEG never scores higher (a PEG at or below zero is neutral instead). */
  lemma ScorePEGAntitone(a: Info, b: Info, x: real, y: real)
    requires Get(a, "pegRatio") == Num(x) && Get(b, "pegRatio") == Num(y) && 0.0 < x <= y
    ensures ScorePEG(a).Score? && ScorePEG(b).Score? && ScorePEG(b).value <= ScorePEG(a).value
  {
    PEGBandsWellFormed();
    BelowAntitone(PEGBands, x, y);
  }

  /** A wider profit margin never scores lower. */
  lemma ScoreProfitMarginsMonotone(a: Info, b: Info, x: real, y: real)
    requires Get(a, "profitMargins") == Num(x) && Get(b, "profitMargins") == Num(y) && x <= y
    ensures ScoreProfitMargins(a).Score? && ScoreProfitMargins(b).Score? && ScoreProfitMargins(a).value <= ScoreProfitMargins(b).value
  {
    var px, py := x * 100.0, y * 100.0;
    assert px <= py;
    ProfitMarginBandsWellFormed();
    AboveMonotone(ProfitMarginBands, px, py);
  }

  /** A wider operating margin never scores lower. */
  lemma ScoreOperatingMarginMonotone(a: Info, b: Info, x: real, y: real)
    requires Get(a, "operatingMargins") == Num(x) && Get(b, "operatingMargins") == Num(y) && x <= y
    ensures ScoreOperatingMargin(a).Score? && ScoreOperatingMargin(b).Score? && ScoreOperatingMargin(a).value <= ScoreOperatingMargin(b).value
  {
    var px, py := x * 100.0, y * 100.0;
    assert px <= py;
    OperatingMarginBandsWellFormed();
    AboveMonotone(OperatingMarginBands, px, py);
  }

  /** A higher return on equity never scores lower. */
  lemma ScoreROEMonotone(a: Info, b: Info, x: real, y: real)
    requires Get(a, "returnOnEquity") == Num(x) && Get(b, "returnOnEquity") == Num(y) && x <= y
    ensures ScoreROE(a).Score? && ScoreROE(b).Score? && ScoreROE(a).value <= ScoreROE(b).value
  {
    var px, py := x * 100.0, y * 100.0;
    assert px <= py;
    ROEBandsWellFormed();
    AboveMonotone(ROEBands, px, py);
  }

  /** A higher return on assets never scores lower. */
  lemma ScoreROAMonotone(a: Info, b: Info, x: real, y: real)
    requires Get(a, "returnOnAssets") == Num(x) && Get(b, "returnOnAssets") == Num(y) && x <= y
    ensures ScoreROA(a).Score? && ScoreROA(b).Score? && ScoreROA(a).value <= ScoreROA(b).value
  {
    var px, py := x * 100.0, y * 100.0;
    assert px <= py;
    ROABandsWellFormed();
    AboveMonotone(ROABands, px, py);
  }

  /** More debt per unit of equity never scores higher. */
  lemma ScoreDebtToEquityAntitone(a: Info, b: Info, x: real, y: real)
    requires Get(a, "debtToEquity") == Num(x) && Get(b, "debtToEquity") == Num(y) && x <= y
    ensures ScoreDebtToEquity(a).Score? && ScoreDebtToEquity(b).Score? && ScoreDebtToEquity(b).value <= ScoreDebtToEquity(a).value
  {
    DebtToEquityBandsWellFormed();
    BelowAntitone(DebtToEquityBands, x, y);
  }

  /** A higher current ratio never scores lower. */
  lemma ScoreCurrentRatioMonotone(a: Info, b: Info, x: real, y: real)
    requires Get(a, "currentRatio") == Num(x) && Get(b, "currentRatio") == Num(y) && x <= y
    ensures ScoreCurrentRatio(a).Score? && ScoreCurrentRatio(b).Score? && ScoreCurrentRatio(a).value <= ScoreCurrentRatio(b).value
  {
    CurrentRatioBandsWellFormed();
    AboveMonotone(CurrentRatioBands, x, y);
  }

  /** More free cash flow never scores lower. */
  lemma ScoreFreeCashFlowMonotone(a: Info, b: Info, x: real, y: real)
    requires Get(a, "freeCashflow") == Num(x) && Get(b, "freeCashflow") == Num(y) && x <= y
    ensures ScoreFreeCashFlow(a).Score? && ScoreFreeCashFlow(b).Score? && ScoreFreeCashFlow(a).value <= ScoreFreeCashFlow(b).value
  {
    FreeCashFlowBandsWellFormed();
    AboveMonotone(FreeCashFlowBands, x, y);
  }

  /**
   * A higher dividend yield never scores lower: a zero yield is neutral, which is also the
   * score of every yield up to 1 %.
   */
  lemma ScoreDividendYieldMonotone(a: Info, b: Info, x: real, y: real)
    requires Get(a, "dividendYield") == Num(x) && Get(b, "dividendYield") == Num(y) && x <= y
    ensures ScoreDividendYield(a).Score? && ScoreDividendYield(b).Score?
    ensures ScoreDividendYield(a).value <= ScoreDividendYield(b).value
  {
    var px, py := x * 100.0, y * 100.0;
    assert px <= py;
    ScoresWithin(DividendYieldBands, 5.0, 10.0);
    if x != 0.0 && y != 0.0 {
      DividendYieldBandsWellFormed();
      AboveMonotone(DividendYieldBands, px, py);
    } else if y == 0.0 && x != 0.0 {
      AboveFloor(DividendYieldBands, px);
    }
  }

  /** A higher positive price-to-book never scores higher (a ratio at or below zero is neutral instead). */
  lemma ScorePriceToBookAntitone(a: Info, b: Info, x: real, y: real)
    requires Get(a, "priceToBook") == Num(x) && Get(b, "priceToBook") == Num(y) && 0.0 < x <= y
    ensures ScorePriceToBook(a).Score? && ScorePriceToBook(b).Score? && ScorePriceToBook(b).value <= ScorePriceToBook(a).value
  {
    PriceToBookBandsWellFormed();
    BelowAntitone(PriceToBookBands, x, y);
  }

  /** Against the same positive total assets, more total debt never scores higher. */
  lemma ScoreDebtToAssetsAntitone(a: Info, b: Info, d: real, e: real, t: real)
    requires Get(a, "totalDebt") == Num(d) && Get(b, "totalDebt") == Num(e) && d <= e
    requires Get(a, "totalAssets") == Num(t) && Get(b, "totalAssets") == Num(t) && t > 0.0
    ensures ScoreDebtToAssets(b) <= ScoreDebtToAssets(a)
  {
    var qd, qe := d / t, e / t;
    assert qd <= qe by {
      assert (qe - qd) * t == e - d;
    }
    var pd, pe := qd * 100.0, qe * 100.0;
    assert pd <= pe;
    DebtToAssetsBandsWellFormed();
    BelowAntitone(DebtToAssetsBands, pd, pe);
  }

  /** A better six-month performance never scores lower. */
  lemma ScoreMomentumMonotone(t: Table, a: seq<Bar>, b: seq<Bar>)
    requires t.steps != [] && Ranked(t) && |a| >= 2 && |b| >= 2 && a[0].close != 0.0 && b[0].close != 0.0
    requires Performance(a) <= Performance(b)
    ensures ScoreMomentum(t, a) <= ScoreMomentum(t, b)
  {
    AboveMonotone(t, Performance(a), Performance(b));
  }

  /**
   * The comparisons are strict, so a figure exactly on a threshold takes the band below it:
   * a six-month gain of exactly 30% scores 9, a P/E of exactly 10 scores 9, a beta of
   * exactly 2 scores 2.
   */
  lemma ThresholdsAreStrict()
    ensures Above(Momentum6MBands, 30.0) == 9.0
    ensures Below(PEBands, 10.0) == 9.0
    ensures Below(BetaBands, 2.0) == 2.0
  {
    Momentum6MBandsWellFormed();
    PEBandsWellFormed();
    BetaBandsWellFormed();
    AboveAtThreshold(Momentum6MBands, 0);
    BelowAtThreshold(PEBands, 0);
    BelowAtThreshold(BetaBands, 5);
  }
}
