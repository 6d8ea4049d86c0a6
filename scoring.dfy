/**
 * `StockScorer`: accepting a quote (`fetch_data`), evaluating the selected profile's
 * indicators, and folding them into the 0-100 score and the per-indicator breakdown
 * (`calculate_score`); plus the alias lookup `search_ticker`.
 */
module Scoring {
  import opened Wrappers
  import opened Strings
  import opened Financials
  import opened Profiles
  import Indicators

  // ---------------------------------------------------------------- indicators of a profile

  /** The `score_*` method a profile entry calls, each as written (the P/E entry included). */
  function Evaluate(ind: Indicator, info: Info, market: Market): (r: Indicators.Outcome)
    ensures r.Score? ==> 0.0 <= r.value <= 10.0
    ensures ind in {Momentum6M, Momentum3M, Rsi, VolumeTrend, DividendGrowth, DebtToAssets} ==> r.Score?
  {
    match ind
    case Momentum6M => Indicators.Score(Indicators.ScoreMomentum6M(market))
    case Momentum3M => Indicators.Score(Indicators.ScoreMomentum3M(market))
    case Rsi => Indicators.Score(Indicators.ScoreRsi(market))
    case RevenueGrowth => Indicators.ScoreRevenueGrowth(info)
    case VolumeTrend => Indicators.Score(Indicators.ScoreVolumeTrend(market))
    case PERatio => Indicators.ScorePEAsWritten(info)
    case Beta => Indicators.ScoreBeta(info)
    case PEGRatio => Indicators.ScorePEG(info)
    case ROE => Indicators.ScoreROE(info)
    case ProfitMargins => Indicators.ScoreProfitMargins(info)
    case FreeCashFlow => Indicators.ScoreFreeCashFlow(info)
    case DebtToEquity => Indicators.ScoreDebtToEquity(info)
    case PriceToBook => Indicators.ScorePriceToBook(info)
    case DividendYield => Indicators.ScoreDividendYield(info)
    case DividendGrowth => Indicators.Score(Indicators.ScoreDividendGrowth(market))
    case OperatingMargin => Indicators.ScoreOperatingMargin(info)
    case DebtToAssets => Indicators.Score(Indicators.ScoreDebtToAssets(info))
    case CurrentRatio => Indicators.ScoreCurrentRatio(info)
  }

  /**
   * The engine's P/E entry is `score_pe_ratio` as written: a missing trailing P/E is neutral
   * whatever the forward P/E, and a non-zero trailing P/E scores as the corrected P/E score would.
   */
  lemma EvaluatePE(info: Info, market: Market, x: real)
    ensures Get(info, "trailingPE") == Null ==> Evaluate(PERatio, info, market) == Indicators.Score(Indicators.Neutral)
    ensures Get(info, "trailingPE") == Num(x) && x != 0.0 ==> Evaluate(PERatio, info, market) == Indicators.ScorePE(info)
  {
    Indicators.PEFallbackAsWritten(info);
    Indicators.PEFallback(info, x);
  }

  /** One entry of `weighted_scores`: (score, weight, name). */
  datatype Weighted = Weighted(score: real, weight: real, name: string)

  /** The outcome of each entry's `score_*` call, in order. */
  function Outcomes(p: seq<Term>, info: Info, market: Market): (os: seq<Indicators.Outcome>)
    ensures |os| == |p|
    ensures forall i :: 0 <= i < |p| ==> os[i] == Evaluate(p[i].indicator, info, market)
  {
    seq(|p|, i requires 0 <= i < |p| => Evaluate(p[i].indicator, info, market))
  }

  /**
   * The `weighted_scores` list built from the entries and their outcomes: one entry per
   * term, in order. The list literal is evaluated entry by entry, so one indicator raising
   * makes the whole run raise.
   */
  function Collect(p: seq<Term>, os: seq<Indicators.Outcome>): (r: Option<seq<Weighted>>)
    requires |os| == |p|
    ensures r.Some? ==> |r.value| == |p|
  {
    if p == [] then Some([])
    else
      var n := |p| - 1;
      var front := Collect(p[..n], os[..n]);
      if front.None? || os[n].Raises? then None
      else Some(front.value + [Weighted(os[n].value, p[n].weight, Name(p[n].indicator))])
  }

  /** The `weighted_scores` list built for a profile. */
  function Evaluated(p: seq<Term>, info: Info, market: Market): (r: Option<seq<Weighted>>)
    ensures r.Some? ==> |r.value| == |p|
  {
    Collect(p, Outcomes(p, info, market))
  }

  lemma {:induction false} CollectEntries(p: seq<Term>, os: seq<Indicators.Outcome>)
    requires |os| == |p|
    ensures var r := Collect(p, os);
            r.Some? ==> forall i :: 0 <= i < |p| ==>
              && os[i] == Indicators.Score(r.value[i].score)
              && r.value[i].weight == p[i].weight
              && r.value[i].name == Name(p[i].indicator)
  {
    var r := Collect(p, os);
    if p != [] && r.Some? {
      var n := |p| - 1;
      CollectEntries(p[..n], os[..n]);
      forall i | 0 <= i < n ensures os[i] == Indicators.Score(r.value[i].score) {
        assert os[..n][i] == os[i];
      }
    }
  }

  lemma {:induction false} CollectFails(p: seq<Term>, os: seq<Indicators.Outcome>)
    requires |os| == |p|
    ensures Collect(p, os).None? <==> exists i :: 0 <= i < |p| && os[i].Raises?
  {
    if p != [] {
      var n := |p| - 1;
      CollectFails(p[..n], os[..n]);
      if Collect(p[..n], os[..n]).None? {
        var i :| 0 <= i < n && os[..n][i].Raises?;
        assert os[i].Raises?;
      } else {
        assert forall i :: 0 <= i < n ==> os[..n][i] == os[i];
      }
    }
  }

  lemma {:induction false} CollectWeights(p: seq<Term>, os: seq<Indicators.Outcome>)
    requires |os| == |p| && Collect(p, os).Some?
    ensures WeightSum(Collect(p, os).value) == TotalWeight(p)
  {
    if p != [] {
      var n := |p| - 1;
      var ws := Collect(p, os).value;
      assert Collect(p[..n], os[..n]).value == ws[..n];
      CollectWeights(p[..n], os[..n]);
    }
  }

  /**
   * An evaluated profile holds, entry by entry, the indicator's score, the profile's weight
   * and the indicator's label.
   */
  lemma EvaluatedEntries(p: seq<Term>, info: Info, market: Market)
    ensures var r := Evaluated(p, info, market);
            r.Some? ==> forall i :: 0 <= i < |p| ==>
              && Evaluate(p[i].indicator, info, market) == Indicators.Score(r.value[i].score)
              && r.value[i].weight == p[i].weight
              && r.value[i].name == Name(p[i].indicator)
  {
    CollectEntries(p, Outcomes(p, info, market));
  }

  /** Evaluation fails exactly when one of the profile's indicators raises. */
  lemma EvaluatedFails(p: seq<Term>, info: Info, market: Market)
    ensures Evaluated(p, info, market).None? <==> exists i :: 0 <= i < |p| && Evaluate(p[i].indicator, info, market).Raises?
  {
    CollectFails(p, Outcomes(p, info, market));
  }

  // ---------------------------------------------------------------- aggregation

  /** One entry's share of the weighted sum: score · weight. */
  function Contribution(w: Weighted): real
  {
    w.score * w.weight
  }

  /** Σ score · weight, added left to right. */
  function WeightedSum(ws: seq<Weighted>): real
  {
    if ws == [] then 0.0 else WeightedSum(ws[..|ws| - 1]) + Contribution(ws[|ws| - 1])
  }

  /** Σ weight, added left to right. */
  function WeightSum(ws: seq<Weighted>): real
  {
    if ws == [] then 0.0 else WeightSum(ws[..|ws| - 1]) + ws[|ws| - 1].weight
  }

  /** Rounding to two decimals, half away from zero on the non-negative scores it is applied to. */
  function Round2(x: real): real
  {
    (x * 100.0 + 0.5).Floor as real / 100.0
  }

  /** Rounding moves a value by at most half a hundredth. */
  lemma Round2Close(x: real)
    ensures x - 0.005 < Round2(x) <= x + 0.005
  {
    var f := (x * 100.0 + 0.5).Floor;
    assert f as real <= x * 100.0 + 0.5 < f as real + 1.0;
    assert Round2(x) == f as real / 100.0;
  }

  /** Rounding never reverses an order. */
  lemma Round2Monotone(x: real, y: real)
    requires x <= y
    ensures Round2(x) <= Round2(y)
  {
    var f := (x * 100.0 + 0.5).Floor;
    var g := (y * 100.0 + 0.5).Floor;
    assert f as real <= x * 100.0 + 0.5 <= y * 100.0 + 0.5 < g as real + 1.0;
    assert f <= g;
    assert Round2(x) == f as real / 100.0 && Round2(y) == g as real / 100.0;
  }

  /** Rounding keeps [0, 100]. */
  lemma Round2Range(x: real)
    requires 0.0 <= x <= 100.0
    ensures 0.0 <= Round2(x) <= 100.0
  {
    var f := (x * 100.0 + 0.5).Floor;
    assert f as real <= x * 100.0 + 0.5 <= 10000.5 && 0.5 <= x * 100.0 + 0.5 < f as real + 1.0;
    assert 0 <= f <= 10000;
    assert Round2(x) == f as real / 100.0;
  }

  /** A whole number of hundredths is left as it is. */
  lemma Round2Exact(k: int)
    ensures Round2(k as real / 100.0) == k as real / 100.0
  {
    var x := k as real / 100.0;
    assert x * 100.0 + 0.5 == k as real + 0.5;
    assert (k as real + 0.5).Floor == k;
  }

  /** The unrounded score: 10 · Σ s·w / Σ w, or 0 when Σ w = 0. */
  function Unrounded(ws: seq<Weighted>): real
  {
    if WeightSum(ws) > 0.0 then WeightedSum(ws) / WeightSum(ws) * 10.0 else 0.0
  }

  /** `final_score`: the unrounded score rounded to two decimals (0 when Σ w = 0). */
  function Final(ws: seq<Weighted>): real
  {
    if WeightSum(ws) > 0.0 then Round2(Unrounded(ws)) else 0.0
  }

  predicate OnScale(ws: seq<Weighted>)
  {
    forall i :: 0 <= i < |ws| ==> 0.0 <= ws[i].score <= 10.0 && ws[i].weight >= 0.0
  }

  lemma {:induction false} WeightedSumBounds(ws: seq<Weighted>)
    requires OnScale(ws)
    ensures 0.0 <= WeightSum(ws)
    ensures 0.0 <= WeightedSum(ws) <= 10.0 * WeightSum(ws)
  {
    if ws != [] {
      var front := ws[..|ws| - 1];
      var last := ws[|ws| - 1];
      assert OnScale(front) by {
        forall i | 0 <= i < |front| ensures 0.0 <= front[i].score <= 10.0 && front[i].weight >= 0.0 {
          assert front[i] == ws[i];
        }
      }
      WeightedSumBounds(front);
      ContributionBounds(last);
      assert WeightedSum(ws) == WeightedSum(front) + Contribution(last);
      assert WeightSum(ws) == WeightSum(front) + last.weight;
    }
  }

  lemma ContributionBounds(w: Weighted)
    requires 0.0 <= w.score <= 10.0 && w.weight >= 0.0
    ensures 0.0 <= Contribution(w) <= 10.0 * w.weight
  {
    assert (10.0 - w.score) * w.weight >= 0.0;
    assert (10.0 - w.score) * w.weight == 10.0 * w.weight - w.score * w.weight;
  }

  /**
   * With every score in [0, 10] and no negative weight, the unrounded score lies in
   * [0, 100], and so does the final score, within half a hundredth of it.
   */
  lemma FinalInRange(ws: seq<Weighted>)
    requires OnScale(ws)
    ensures 0.0 <= Unrounded(ws) <= 100.0
    ensures 0.0 <= Final(ws) <= 100.0
    ensures WeightSum(ws) > 0.0 ==> Unrounded(ws) - 0.005 < Final(ws) <= Unrounded(ws) + 0.005
  {
    WeightedSumBounds(ws);
    if WeightSum(ws) > 0.0 {
      var s, w := WeightedSum(ws), WeightSum(ws);
      RatioBounds(s, w);
      Round2Close(Unrounded(ws));
      Round2Range(Unrounded(ws));
    }
  }

  lemma RatioBounds(s: real, w: real)
    requires w > 0.0 && 0.0 <= s <= 10.0 * w
    ensures 0.0 <= s / w <= 10.0
  {
    var q := s / w;
    assert q * w == s;
    assert 0.0 <= q by {
      assert q * w >= 0.0;
    }
    assert q <= 10.0 by {
      assert (10.0 - q) * w == 10.0 * w - s;
    }
  }

  /** When every indicator returns the same score c, the weighted sum is c · Σ w. */
  lemma {:induction false} UniformWeightedSum(ws: seq<Weighted>, c: real)
    requires forall i :: 0 <= i < |ws| ==> ws[i].score == c
    ensures WeightedSum(ws) == c * WeightSum(ws)
  {
    if ws != [] {
      var front := ws[..|ws| - 1];
      assert forall i :: 0 <= i < |front| ==> front[i].score == c by {
        forall i | 0 <= i < |front| ensures front[i].score == c {
          assert front[i] == ws[i];
        }
      }
      UniformWeightedSum(front, c);
    }
  }

  lemma DivideBack(c: real, w: real)
    requires w > 0.0
    ensures (c * w) / w == c
  {
  }

  /** If every indicator scores 5.0 (and the weights are not all zero), the final score is 50.0. */
  lemma AllNeutralIsFifty(ws: seq<Weighted>)
    requires forall i :: 0 <= i < |ws| ==> ws[i].score == Indicators.Neutral
    requires WeightSum(ws) > 0.0
    ensures Final(ws) == 50.0
  {
    UniformWeightedSum(ws, 5.0);
    var w := WeightSum(ws);
    DivideBack(5.0, w);
    assert WeightedSum(ws) / w == 5.0;
    assert Unrounded(ws) == 50.0;
    Round2Exact(5000);
  }

  /** Two lists with the same weights whose scores compare entry by entry compare in Σ s·w. */
  lemma {:induction false} WeightedSumMonotone(ws: seq<Weighted>, vs: seq<Weighted>)
    requires |ws| == |vs|
    requires forall i :: 0 <= i < |ws| ==> ws[i].weight == vs[i].weight >= 0.0 && ws[i].score <= vs[i].score
    ensures WeightSum(ws) == WeightSum(vs)
    ensures WeightedSum(ws) <= WeightedSum(vs)
  {
    if ws != [] {
      var n := |ws| - 1;
      assert forall i :: 0 <= i < n ==> ws[..n][i] == ws[i] && vs[..n][i] == vs[i];
      WeightedSumMonotone(ws[..n], vs[..n]);
      assert Contribution(ws[n]) <= Contribution(vs[n]) by {
        assert (vs[n].score - ws[n].score) * ws[n].weight >= 0.0;
      }
    }
  }

  /** Raising any indicator's score, weights unchanged, never lowers the final score. */
  lemma FinalMonotone(ws: seq<Weighted>, vs: seq<Weighted>)
    requires |ws| == |vs|
    requires forall i :: 0 <= i < |ws| ==> ws[i].weight == vs[i].weight >= 0.0 && ws[i].score <= vs[i].score
    ensures Final(ws) <= Final(vs)
  {
    WeightedSumMonotone(ws, vs);
    if WeightSum(ws) > 0.0 {
      var w := WeightSum(ws);
      assert WeightedSum(ws) / w <= WeightedSum(vs) / w;
      Round2Monotone(Unrounded(ws), Unrounded(vs));
    }
  }

  /** The weights of an evaluated profile are the profile's weights. */
  lemma EvaluatedWeights(p: seq<Term>, info: Info, market: Market)
    requires Evaluated(p, info, market).Some?
    ensures WeightSum(Evaluated(p, info, market).value) == TotalWeight(p)
    ensures OnScale(Evaluated(p, info, market).value) <== PositiveWeights(p)
  {
    CollectWeights(p, Outcomes(p, info, market));
    EvaluatedEntries(p, info, market);
  }

  // ---------------------------------------------------------------- breakdown

  /** `self.scores` filled from `weighted_scores` in order: a later entry overwrites an equal name. */
  function Breakdown(ws: seq<Weighted>): map<string, real>
  {
    if ws == [] then map[] else Breakdown(ws[..|ws| - 1])[ws[|ws| - 1].name := ws[|ws| - 1].score]
  }

  predicate DistinctNames(ws: seq<Weighted>)
  {
    forall i, j :: 0 <= i < j < |ws| ==> ws[i].name != ws[j].name
  }

  /** The names of a list's entries. */
  function Names(ws: seq<Weighted>): set<string>
  {
    set i | 0 <= i < |ws| :: ws[i].name
  }

  lemma NamesOfFront(ws: seq<Weighted>)
    requires ws != []
    ensures Names(ws) == Names(ws[..|ws| - 1]) + {ws[|ws| - 1].name}
  {
    var n := |ws| - 1;
    forall i | 0 <= i < |ws| ensures ws[i].name in Names(ws[..n]) + {ws[n].name} {
      if i < n {
        assert ws[..n][i] == ws[i];
      }
    }
    forall i | 0 <= i < n ensures ws[..n][i].name in Names(ws) {
      assert ws[..n][i] == ws[i];
    }
  }

  /** The breakdown holds exactly the names of the list. */
  lemma {:induction false} BreakdownKeys(ws: seq<Weighted>)
    ensures Breakdown(ws).Keys == Names(ws)
  {
    if ws != [] {
      BreakdownKeys(ws[..|ws| - 1]);
      NamesOfFront(ws);
    }
  }

  /** With distinct names, each name holds its own entry's score. */
  lemma {:induction false} BreakdownValues(ws: seq<Weighted>)
    requires DistinctNames(ws)
    ensures forall i :: 0 <= i < |ws| ==> ws[i].name in Breakdown(ws) && Breakdown(ws)[ws[i].name] == ws[i].score
  {
    BreakdownKeys(ws);
    if ws != [] {
      var n := |ws| - 1;
      var front := ws[..n];
      assert DistinctNames(front);
      BreakdownValues(front);
      forall i | 0 <= i < |ws| ensures ws[i].name in Breakdown(ws) && Breakdown(ws)[ws[i].name] == ws[i].score {
        assert ws[i].name in Names(ws);
        if i < n {
          assert front[i] == ws[i];
          assert ws[i].name != ws[n].name;
        }
      }
    }
  }

  /** Distinct indicators give distinct names. */
  lemma CollectNamesDistinct(p: seq<Term>, os: seq<Indicators.Outcome>)
    requires |os| == |p| && Collect(p, os).Some? && Distinct(p)
    ensures DistinctNames(Collect(p, os).value)
  {
    var ws := Collect(p, os).value;
    CollectEntries(p, os);
    forall i, j | 0 <= i < j < |ws| ensures ws[i].name != ws[j].name {
      NameIsInjective(p[i].indicator, p[j].indicator);
    }
  }

  // ---------------------------------------------------------------- accepting a quote

  /** `info.get('sector', 'Unknown')`: a sector of `None` stays `None`. */
  function SectorField(info: Info): Value
  {
    if "sector" in info then info["sector"] else Text("Unknown")
  }

  function IndustryField(info: Info): Value
  {
    if "industry" in info then info["industry"] else Text("Unknown")
  }

  /** The first check of `fetch_data`: a non-empty quote with at least five fields, one of them `symbol`. */
  predicate Found(info: Info)
  {
    |info| >= 5 && "symbol" in info
  }

  /** The whole of `fetch_data`'s check: found, and not both without a sector and without a truthy price. */
  predicate Accepted(info: Info)
  {
    Found(info) && !(SectorField(info) == Text("Unknown") && !Truthy(Get(info, "currentPrice")))
  }

  /** What `calculate_score` ends in: `None`, an exception from an indicator, or a score. */
  datatype Run = Rejected | Raised | Scored(score: real)

  /** The weighted list `calculate_score` builds for a quote it accepted. */
  function Weigh(info: Info, horizon: string, market: Market): Option<seq<Weighted>>
  {
    Evaluated(Select(SectorField(info), horizon), info, market)
  }

  /**
   * `calculate_score` for the quote the provider returns (`None` when fetching it raises),
   * the lower-cased horizon and the price and dividend series.
   */
  function ScoreOf(quote: Option<Info>, horizon: string, market: Market): Run
  {
    if quote.None? || !Accepted(quote.value) then Rejected
    else
      match Weigh(quote.value, horizon, market)
      case None => Raised
      case Some(ws) => Scored(Final(ws))
  }

  /** A run is rejected exactly when the quote is missing or fails `fetch_data`'s checks. */
  lemma RejectedExactly(quote: Option<Info>, horizon: string, market: Market)
    ensures ScoreOf(quote, horizon, market) == Rejected <==> quote.None? || !Accepted(quote.value)
  {
  }

  /**
   * Over a profile of positive weights, an evaluation that succeeds lies on the 0-10 scale
   * and its final score in [0, 100], within half a hundredth of 10 · Σ s·w / Σ w.
   */
  lemma EvaluatedInRange(p: seq<Term>, info: Info, market: Market)
    requires PositiveWeights(p) && Evaluated(p, info, market).Some?
    ensures var ws := Evaluated(p, info, market).value;
            && OnScale(ws) && WeightSum(ws) == TotalWeight(p)
            && 0.0 <= Final(ws) <= 100.0
            && (TotalWeight(p) > 0.0 ==> Unrounded(ws) - 0.005 < Final(ws) <= Unrounded(ws) + 0.005)
  {
    EvaluatedWeights(p, info, market);
    FinalInRange(Evaluated(p, info, market).value);
  }

  /** A scored run lies in [0, 100], within half a hundredth of the unrounded score. */
  lemma ScoredInRange(quote: Option<Info>, horizon: string, market: Market)
    requires ScoreOf(quote, horizon, market).Scored?
    ensures var ws := Weigh(quote.value, horizon, market).value;
            && 0.0 <= ScoreOf(quote, horizon, market).score <= 100.0
            && Unrounded(ws) - 0.005 < ScoreOf(quote, horizon, market).score <= Unrounded(ws) + 0.005
  {
    var info := quote.value;
    var sector, short := SectorOf(SectorField(info)), IsShort(horizon);
    ProfileShape(sector, short);
    EvaluatedInRange(Profile(sector, short), info, market);
  }

  /** A run raises exactly when the quote is accepted and one of its profile's indicators raises. */
  lemma RaisedExactly(quote: Option<Info>, horizon: string, market: Market)
    ensures ScoreOf(quote, horizon, market) == Raised <==>
              && quote.Some? && Accepted(quote.value)
              && exists i :: 0 <= i < |Select(SectorField(quote.value), horizon)| &&
                             Evaluate(Select(SectorField(quote.value), horizon)[i].indicator, quote.value, market).Raises?
  {
    if quote.Some? {
      EvaluatedFails(Select(SectorField(quote.value), horizon), quote.value, market);
    }
  }

  /** The figures the field-based indicators read. */
  const FigureKeys: set<string> :=
    {"trailingPE", "forwardPE", "pegRatio", "revenueGrowth", "profitMargins", "operatingMargins", "returnOnEquity",
     "debtToEquity", "totalDebt", "totalAssets", "currentRatio", "freeCashflow", "dividendYield", "priceToBook", "beta"}

  /** A quote carrying none of the figures (each missing or `None`). */
  predicate Blank(info: Info)
  {
    forall k :: k in FigureKeys ==> Get(info, k) == Null
  }

  const NoHistory := Market([], [], [])

  /** Without figures or history, every indicator is neutral. */
  lemma BlankIsNeutral(ind: Indicator, info: Info)
    requires Blank(info)
    ensures Evaluate(ind, info, NoHistory) == Indicators.Score(Indicators.Neutral)
  {
    Indicators.MissingFiguresAreNeutral(info);
    Indicators.PEFallbackAsWritten(info);
    assert Get(info, "trailingPE") == Null;
    assert Get(info, "pegRatio") == Null && Get(info, "revenueGrowth") == Null && Get(info, "profitMargins") == Null;
    assert Get(info, "operatingMargins") == Null && Get(info, "returnOnEquity") == Null;
    assert Get(info, "debtToEquity") == Null && Get(info, "totalDebt") == Null && Get(info, "currentRatio") == Null;
    assert Get(info, "freeCashflow") == Null && Get(info, "dividendYield") == Null;
    assert Get(info, "priceToBook") == Null && Get(info, "beta") == Null;
  }

  /**
   * An accepted quote with none of the figures and no history scores exactly 50.0, in
   * every sector and horizon.
   */
  lemma BlankQuoteScoresFifty(info: Info, horizon: string)
    requires Accepted(info) && Blank(info)
    ensures ScoreOf(Some(info), horizon, NoHistory) == Scored(50.0)
  {
    var sector, short := SectorOf(SectorField(info)), IsShort(horizon);
    var p := Profile(sector, short);
    ProfileShape(sector, short);
    forall i | 0 <= i < |p| ensures Evaluate(p[i].indicator, info, NoHistory) == Indicators.Score(Indicators.Neutral) {
      BlankIsNeutral(p[i].indicator, info);
    }
    EvaluatedFails(p, info, NoHistory);
    EvaluatedEntries(p, info, NoHistory);
    var ws := Evaluated(p, info, NoHistory).value;
    EvaluatedWeights(p, info, NoHistory);
    AllNeutralIsFifty(ws);
  }

  // ---------------------------------------------------------------- the scorer object

  class StockScorer {
    var ticker: string
    var horizon: string
    var info: Option<Info>
    var sector: Option<Value>
    var industry: Option<Value>
    var scores: map<string, real>
    var finalScore: real

    /** The ticker is upper-cased and the horizon lower-cased once, here. */
    constructor(ticker: string, horizon: string)
      ensures this.ticker == Upper(ticker) && this.horizon == Lower(horizon)
      ensures info == None && sector == None && industry == None
      ensures scores == map[] && finalScore == 0.0
    {
      this.ticker := Upper(ticker);
      this.horizon := Lower(horizon);
      info := None;
      sector := None;
      industry := None;
      scores := map[];
      finalScore := 0.0;
    }

    /**
     * `fetch_data` given what the provider returned for `ticker` (`None` when the request
     * raised): stores the quote, then its sector and industry once it is found.
     */
    method FetchData(quote: Option<Info>) returns (ok: bool)
      modifies this
      ensures ok <==> quote.Some? && Accepted(quote.value)
      ensures info == if quote.Some? then quote else old(info)
      ensures sector == if quote.Some? && Found(quote.value) then Some(SectorField(quote.value)) else old(sector)
      ensures industry == if quote.Some? && Found(quote.value) then Some(IndustryField(quote.value)) else old(industry)
      ensures ticker == old(ticker) && horizon == old(horizon)
      ensures scores == old(scores) && finalScore == old(finalScore)
    {
      if quote.None? {
        return false;
      }
      info := quote;
      var q := quote.value;
      if !Found(q) {
        return false;
      }
      sector := Some(SectorField(q));
      industry := Some(IndustryField(q));
      if sector.value == Text("Unknown") && !Truthy(Get(q, "currentPrice")) {
        return false;
      }
      return true;
    }

    /**
     * The end of `calculate_score`: `scores` is reset and filled from `weighted_scores` in
     * order, then the final score is the rounded normalised weighted average.
     */
    method Aggregate(ws: seq<Weighted>)
      modifies this
      ensures scores == Breakdown(ws) && finalScore == Final(ws)
      ensures ticker == old(ticker) && horizon == old(horizon)
      ensures info == old(info) && sector == old(sector) && industry == old(industry)
    {
      scores := map[];
      var i := 0;
      while i < |ws|
        invariant 0 <= i <= |ws|
        invariant scores == Breakdown(ws[..i])
        invariant ticker == old(ticker) && horizon == old(horizon)
        invariant info == old(info) && sector == old(sector) && industry == old(industry)
      {
        assert ws[..i + 1][..i] == ws[..i];
        scores := scores[ws[i].name := ws[i].score];
        i := i + 1;
      }
      assert ws[..|ws|] == ws;
      var weightedSum, totalWeight := WeightedSum(ws), WeightSum(ws);
      if totalWeight > 0.0 {
        finalScore := Round2(weightedSum / totalWeight * 10.0);
      } else {
        finalScore := 0.0;
      }
    }

    /**
     * `calculate_score`: the run `ScoreOf` describes. The quote, sector and industry are
     * stored as `fetch_data` stores them. A scored run replaces `scores` by the
     * breakdown of the selected profile, with nothing left from earlier runs, and sets the
     * final score; a rejected or raising run leaves both as they were.
     */
    method CalculateScore(quote: Option<Info>, market: Market) returns (r: Run)
      modifies this
      ensures ticker == old(ticker) && horizon == old(horizon)
      ensures info == if quote.Some? then quote else old(info)
      ensures sector == if quote.Some? && Found(quote.value) then Some(SectorField(quote.value)) else old(sector)
      ensures industry == if quote.Some? && Found(quote.value) then Some(IndustryField(quote.value)) else old(industry)
      ensures r == ScoreOf(quote, horizon, market)
      ensures r.Scored? ==> quote.Some? && Weigh(quote.value, horizon, market).Some?
      ensures r.Scored? ==> scores == Breakdown(Weigh(quote.value, horizon, market).value) && finalScore == r.score
      ensures !r.Scored? ==> scores == old(scores) && finalScore == old(finalScore)
    {
      var ok := FetchData(quote);
      if !ok {
        return Rejected;
      }
      var weighted := Weigh(quote.value, horizon, market);
      if weighted.None? {
        return Raised;
      }
      Aggregate(weighted.value);
      return Scored(finalScore);
    }
  }

  lemma CollectBreakdownKeys(p: seq<Term>, os: seq<Indicators.Outcome>)
    requires |os| == |p| && Collect(p, os).Some?
    ensures Breakdown(Collect(p, os).value).Keys == (set i | 0 <= i < |p| :: Name(p[i].indicator))
  {
    var ws := Collect(p, os).value;
    CollectEntries(p, os);
    BreakdownKeys(ws);
    var names := Names(ws);
    var labels := set i | 0 <= i < |p| :: Name(p[i].indicator);
    forall i | 0 <= i < |p| ensures Name(p[i].indicator) in names && ws[i].name in labels {
      assert ws[i].name == Name(p[i].indicator);
    }
    assert names == labels;
  }

  lemma CollectBreakdownScores(p: seq<Term>, os: seq<Indicators.Outcome>)
    requires |os| == |p| && Distinct(p) && Collect(p, os).Some?
    ensures var b := Breakdown(Collect(p, os).value);
            forall i :: 0 <= i < |p| ==> Name(p[i].indicator) in b && os[i] == Indicators.Score(b[Name(p[i].indicator)])
  {
    var ws := Collect(p, os).value;
    CollectEntries(p, os);
    CollectNamesDistinct(p, os);
    BreakdownValues(ws);
  }

  /**
   * The breakdown of an evaluated profile with distinct indicators holds exactly the
   * profile's labels, each with its indicator's score.
   */
  lemma BreakdownOfProfile(p: seq<Term>, info: Info, market: Market)
    requires Distinct(p) && Evaluated(p, info, market).Some?
    ensures var b := Breakdown(Evaluated(p, info, market).value);
            && b.Keys == (set i | 0 <= i < |p| :: Name(p[i].indicator))
            && forall i :: 0 <= i < |p| ==> Evaluate(p[i].indicator, info, market) == Indicators.Score(b[Name(p[i].indicator)])
  {
    CollectBreakdownKeys(p, Outcomes(p, info, market));
    CollectBreakdownScores(p, Outcomes(p, info, market));
  }


  /**
   * After a scored run the breakdown holds exactly the labels of the selected profile, each
   * with its indicator's score, whatever an earlier run left.
   */
  lemma BreakdownMatchesProfile(info: Info, horizon: string, market: Market)
    requires Weigh(info, horizon, market).Some?
    ensures var p := Select(SectorField(info), horizon);
            var b := Breakdown(Weigh(info, horizon, market).value);
            && b.Keys == (set i | 0 <= i < |p| :: Name(p[i].indicator))
            && forall i :: 0 <= i < |p| ==> Evaluate(p[i].indicator, info, market) == Indicators.Score(b[Name(p[i].indicator)])
  {
    var sector, short := SectorOf(SectorField(info)), IsShort(horizon);
    ProfileShape(sector, short);
    BreakdownOfProfile(Profile(sector, short), info, market);
  }

  // ---------------------------------------------------------------- search_ticker

  /**
   * `search_ticker` over the alias table `aliases` (lower-case company name to ticker):
   * the alias of the stripped, lower-cased name; else the upper-cased input when it is at
   * most six characters long and upper-case or dotted; else `None`.
   */
  function SearchTicker(aliases: map<string, string>, name: string): (r: Option<string>)
    ensures Lower(Strip(name)) in aliases ==> r == Some(aliases[Lower(Strip(name))])
    ensures Lower(Strip(name)) !in aliases ==> (r.Some? <==> |name| <= 6 && (IsUpperCased(name) || '.' in name))
    ensures r.Some? && Lower(Strip(name)) !in aliases ==> r.value == Upper(name) && |r.value| <= 6
  {
    var key := Lower(Strip(name));
    if key in aliases then Some(aliases[key])
    else if |name| <= 6 && (IsUpperCased(name) || '.' in name) then Some(Upper(name))
    else None
  }

  /** Upper-casing leaves a string without lower-case letters unchanged. */
  lemma UpperKeepsUpperCase(s: string)
    requires forall i :: 0 <= i < |s| ==> !IsLowerLetter(s[i])
    ensures Upper(s) == s
  {
  }

  /** A short upper-case ticker that is not an alias key is used as it stands. */
  lemma TickerPassesThrough(aliases: map<string, string>, t: string)
    requires Lower(Strip(t)) !in aliases && |t| <= 6 && IsUpperCased(t)
    ensures SearchTicker(aliases, t) == Some(t)
  {
    UpperKeepsUpperCase(t);
  }

  /** A dotted foreign ticker such as "mc.pa" is upper-cased, whatever its case. */
  lemma DottedTickerIsUpperCased(aliases: map<string, string>, t: string)
    requires Lower(Strip(t)) !in aliases && |t| <= 6 && '.' in t
    ensures SearchTicker(aliases, t) == Some(Upper(t))
    ensures forall i :: 0 <= i < |t| ==> !IsLowerLetter(SearchTicker(aliases, t).value[i])
  {
  }
}
