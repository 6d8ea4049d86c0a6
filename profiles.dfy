/**
 * The sector x horizon weight policy of `StockScorer.calculate_score`: one profile per
 * recognised sector and horizon, plus a default pair for every other sector string.
 * A profile is the ordered list of (indicator, weight) pairs handed to the aggregation.
 */
module Profiles {
  import opened Wrappers
  import opened Financials

  /** The indicators a profile can name (`score_roa` is defined but used by no profile). */
  datatype Indicator =
    | Momentum6M | Momentum3M | Rsi | RevenueGrowth | VolumeTrend | PERatio | Beta | PEGRatio | ROE
    | ProfitMargins | FreeCashFlow | DebtToEquity | PriceToBook | DividendYield | DividendGrowth
    | OperatingMargin | DebtToAssets | CurrentRatio

  /** The label under which an indicator's score is stored in `scores`. */
  function Name(ind: Indicator): string
  {
    match ind
    case Momentum6M => "Momentum 6M"
    case Momentum3M => "Momentum 3M"
    case Rsi => "RSI"
    case RevenueGrowth => "Croissance CA"
    case VolumeTrend => "Volume"
    case PERatio => "P/E Ratio"
    case Beta => "Beta"
    case PEGRatio => "PEG Ratio"
    case ROE => "ROE"
    case ProfitMargins => "Marges"
    case FreeCashFlow => "Free Cash Flow"
    case DebtToEquity => "Dette/Capitaux"
    case PriceToBook => "Price/Book"
    case DividendYield => "Dividende"
    case DividendGrowth => "Croiss. Dividende"
    case OperatingMargin => "Marge Op\U{00E9}"
    case DebtToAssets => "Dette/Actifs"
    case CurrentRatio => "Liquidit\U{00E9}"
  }

  /** The indicator stored under a label, if any. */
  function Named(tag: string): Option<Indicator>
  {
    if tag == "Momentum 6M" then Some(Momentum6M)
    else if tag == "Momentum 3M" then Some(Momentum3M)
    else if tag == "RSI" then Some(Rsi)
    else if tag == "Croissance CA" then Some(RevenueGrowth)
    else if tag == "Volume" then Some(VolumeTrend)
    else if tag == "P/E Ratio" then Some(PERatio)
    else if tag == "Beta" then Some(Beta)
    else if tag == "PEG Ratio" then Some(PEGRatio)
    else if tag == "ROE" then Some(ROE)
    else if tag == "Marges" then Some(ProfitMargins)
    else if tag == "Free Cash Flow" then Some(FreeCashFlow)
    else if tag == "Dette/Capitaux" then Some(DebtToEquity)
    else if tag == "Price/Book" then Some(PriceToBook)
    else if tag == "Dividende" then Some(DividendYield)
    else if tag == "Croiss. Dividende" then Some(DividendGrowth)
    else if tag == "Marge Op\U{00E9}" then Some(OperatingMargin)
    else if tag == "Dette/Actifs" then Some(DebtToAssets)
    else if tag == "Liquidit\U{00E9}" then Some(CurrentRatio)
    else None
  }

  /** Every label reads back as its indicator, so no two indicators share a label. */
  lemma NameIsInjective(a: Indicator, b: Indicator)
    ensures Named(Name(a)) == Some(a)
    ensures Name(a) == Name(b) ==> a == b
  {
    NamedName(a);
    NamedName(b);
  }

  lemma NamedName(a: Indicator)
    ensures Named(Name(a)) == Some(a)
  {
    match a
    case Momentum6M =>
    case Momentum3M =>
    case Rsi =>
    case RevenueGrowth =>
    case VolumeTrend =>
    case PERatio =>
    case Beta =>
    case PEGRatio =>
    case ROE =>
    case ProfitMargins =>
    case FreeCashFlow =>
    case DebtToEquity =>
    case PriceToBook =>
    case DividendYield =>
    case DividendGrowth =>
    case OperatingMargin =>
    case DebtToAssets =>
    case CurrentRatio =>
  }

  /** The sectors with a profile of their own; `Other` stands for every other sector value. */
  datatype Sector =
    | Technology | Healthcare | FinancialServices | ConsumerCyclical | ConsumerDefensive | Energy
    | Industrials | RealEstate | Utilities | BasicMaterials | CommunicationServices | Other

  /** The provider's spelling of a recognised sector. */
  function SectorName(s: Sector): string
    requires s != Other
  {
    match s
    case Technology => "Technology"
    case Healthcare => "Healthcare"
    case FinancialServices => "Financial Services"
    case ConsumerCyclical => "Consumer Cyclical"
    case ConsumerDefensive => "Consumer Defensive"
    case Energy => "Energy"
    case Industrials => "Industrials"
    case RealEstate => "Real Estate"
    case Utilities => "Utilities"
    case BasicMaterials => "Basic Materials"
    case CommunicationServices => "Communication Services"
  }

  /** The branch of the `if self.sector == ...` chain a sector value takes (exact, case-sensitive). */
  function SectorOf(v: Value): Sector
  {
    if v == Text("Technology") then Technology
    else if v == Text("Healthcare") then Healthcare
    else if v == Text("Financial Services") then FinancialServices
    else if v == Text("Consumer Cyclical") then ConsumerCyclical
    else if v == Text("Consumer Defensive") then ConsumerDefensive
    else if v == Text("Energy") then Energy
    else if v == Text("Industrials") then Industrials
    else if v == Text("Real Estate") then RealEstate
    else if v == Text("Utilities") then Utilities
    else if v == Text("Basic Materials") then BasicMaterials
    else if v == Text("Communication Services") then CommunicationServices
    else Other
  }

  /** A recognised sector's own name selects that sector's profile. */
  lemma SectorNameSelects(s: Sector)
    requires s != Other
    ensures SectorOf(Text(SectorName(s))) == s
  {
  }

  /** A value that selects a recognised sector is exactly that sector's name. */
  lemma SelectedByName(v: Value)
    ensures SectorOf(v) != Other ==> v == Text(SectorName(SectorOf(v)))
  {
  }

  /** A value selects a sector's own profile exactly when it is that sector's name. */
  lemma SectorSelection(v: Value, s: Sector)
    requires s != Other
    ensures SectorOf(v) == s <==> v == Text(SectorName(s))
  {
    SectorNameSelects(s);
    SelectedByName(v);
  }

  /**
   * Selection never fails: every value that is none of the eleven names (another string,
   * a number, `None`) selects the default profile, and only those do.
   */
  lemma DefaultSelection(v: Value)
    ensures SectorOf(v) == Other <==> (forall t: Sector :: t != Other ==> v != Text(SectorName(t)))
  {
    forall t: Sector | t != Other {
      SectorNameSelects(t);
    }
    SelectedByName(v);
  }

  /** Only the (already lower-cased) horizon "court" selects the short-horizon profile. */
  predicate IsShort(horizon: string)
  {
    horizon == "court"
  }

  datatype Term = Term(indicator: Indicator, weight: real)

  /** The profile of a sector for the short (`short`) or long horizon, in source order. */
  function Profile(s: Sector, short: bool): seq<Term>
  {
    match s
    case Technology =>
      if short then [Term(Momentum6M, 0.25), Term(Momentum3M, 0.15), Term(Rsi, 0.15), Term(RevenueGrowth, 0.15),
                     Term(VolumeTrend, 0.10), Term(PERatio, 0.10), Term(Beta, 0.10)]
      else [Term(RevenueGrowth, 0.20), Term(PEGRatio, 0.20), Term(ROE, 0.15), Term(ProfitMargins, 0.15),
            Term(FreeCashFlow, 0.15), Term(DebtToEquity, 0.10), Term(Beta, 0.05)]
    case Healthcare =>
      if short then [Term(Momentum6M, 0.20), Term(RevenueGrowth, 0.15), Term(Rsi, 0.15), Term(ProfitMargins, 0.15),
                     Term(PERatio, 0.15), Term(FreeCashFlow, 0.10), Term(Beta, 0.10)]
      else [Term(ROE, 0.20), Term(RevenueGrowth, 0.20), Term(FreeCashFlow, 0.20), Term(ProfitMargins, 0.15),
            Term(DebtToEquity, 0.15), Term(PEGRatio, 0.10)]
    case FinancialServices =>
      if short then [Term(Momentum6M, 0.20), Term(Rsi, 0.15), Term(PERatio, 0.15), Term(ROE, 0.15),
                     Term(PriceToBook, 0.15), Term(DividendYield, 0.10), Term(Beta, 0.10)]
      else [Term(ROE, 0.25), Term(DividendYield, 0.20), Term(PriceToBook, 0.20), Term(DebtToEquity, 0.15),
            Term(ProfitMargins, 0.10), Term(Beta, 0.10)]
    case ConsumerCyclical =>
      if short then [Term(Momentum6M, 0.25), Term(RevenueGrowth, 0.20), Term(Rsi, 0.15), Term(ProfitMargins, 0.15),
                     Term(VolumeTrend, 0.10), Term(PERatio, 0.10), Term(Beta, 0.05)]
      else [Term(RevenueGrowth, 0.20), Term(ROE, 0.20), Term(ProfitMargins, 0.20), Term(FreeCashFlow, 0.15),
            Term(DebtToEquity, 0.15), Term(PEGRatio, 0.10)]
    case ConsumerDefensive =>
      if short then [Term(DividendYield, 0.25), Term(Momentum6M, 0.20), Term(ProfitMargins, 0.15), Term(Rsi, 0.15),
                     Term(Beta, 0.15), Term(DebtToEquity, 0.10)]
      else [Term(DividendYield, 0.30), Term(DividendGrowth, 0.20), Term(ROE, 0.15), Term(ProfitMargins, 0.15),
            Term(DebtToEquity, 0.10), Term(Beta, 0.10)]
    case Energy =>
      if short then [Term(Momentum6M, 0.25), Term(OperatingMargin, 0.20), Term(Rsi, 0.15), Term(FreeCashFlow, 0.15),
                     Term(DividendYield, 0.15), Term(Beta, 0.10)]
      else [Term(FreeCashFlow, 0.25), Term(DividendYield, 0.20), Term(OperatingMargin, 0.20),
            Term(DebtToEquity, 0.15), Term(ROE, 0.10), Term(Beta, 0.10)]
    case Industrials =>
      if short then [Term(Momentum6M, 0.20), Term(RevenueGrowth, 0.20), Term(Rsi, 0.15), Term(OperatingMargin, 0.15),
                     Term(FreeCashFlow, 0.15), Term(Beta, 0.15)]
      else [Term(ROE, 0.20), Term(FreeCashFlow, 0.20), Term(OperatingMargin, 0.20), Term(DebtToEquity, 0.20),
            Term(DividendYield, 0.10), Term(Beta, 0.10)]
    case RealEstate =>
      if short then [Term(DividendYield, 0.25), Term(PriceToBook, 0.15), Term(Rsi, 0.10), Term(DebtToAssets, 0.15),
                     Term(Beta, 0.15)]
      else [Term(DividendYield, 0.30), Term(DividendGrowth, 0.20), Term(DebtToAssets, 0.20), Term(PriceToBook, 0.15),
            Term(ROE, 0.10), Term(Beta, 0.05)]
    case Utilities =>
      if short then [Term(Momentum6M, 0.15), Term(DividendYield, 0.30), Term(Beta, 0.15), Term(Rsi, 0.10),
                     Term(DebtToEquity, 0.15), Term(CurrentRatio, 0.15)]
      else [Term(DividendYield, 0.30), Term(DividendGrowth, 0.25), Term(DebtToEquity, 0.20), Term(Beta, 0.15),
            Term(FreeCashFlow, 0.10)]
    case BasicMaterials =>
      if short then [Term(Momentum6M, 0.20), Term(OperatingMargin, 0.20), Term(FreeCashFlow, 0.15), Term(Rsi, 0.10),
                     Term(DebtToEquity, 0.15), Term(RevenueGrowth, 0.10), Term(Beta, 0.10)]
      else [Term(FreeCashFlow, 0.25), Term(OperatingMargin, 0.20), Term(DebtToEquity, 0.20), Term(ROE, 0.15),
            Term(CurrentRatio, 0.10), Term(DividendYield, 0.10)]
    case CommunicationServices =>
      if short then [Term(Momentum6M, 0.20), Term(RevenueGrowth, 0.20), Term(OperatingMargin, 0.15), Term(Rsi, 0.10),
                     Term(FreeCashFlow, 0.15), Term(VolumeTrend, 0.10), Term(Beta, 0.10)]
      else [Term(FreeCashFlow, 0.25), Term(OperatingMargin, 0.20), Term(RevenueGrowth, 0.15),
            Term(DebtToEquity, 0.15), Term(ROE, 0.15), Term(DividendYield, 0.10)]
    case Other =>
      if short then [Term(Momentum6M, 0.25), Term(Rsi, 0.15), Term(VolumeTrend, 0.15), Term(RevenueGrowth, 0.15),
                     Term(ProfitMargins, 0.15), Term(Beta, 0.15)]
      else [Term(ROE, 0.20), Term(ProfitMargins, 0.20), Term(FreeCashFlow, 0.20), Term(DebtToEquity, 0.20),
            Term(DividendYield, 0.10), Term(Beta, 0.10)]
  }

  /** Σ weight, added left to right as Python's `sum` does. */
  function TotalWeight(p: seq<Term>): real
  {
    if p == [] then 0.0 else TotalWeight(p[..|p| - 1]) + p[|p| - 1].weight
  }

  /** No indicator appears twice in a profile. */
  predicate Distinct(p: seq<Term>)
  {
    forall i, j :: 0 <= i < j < |p| ==> p[i].indicator != p[j].indicator
  }

  predicate PositiveWeights(p: seq<Term>)
  {
    forall i :: 0 <= i < |p| ==> p[i].weight > 0.0
  }

  /** A profile of five to seven distinct indicators with positive weights summing to `total`. */
  predicate Shaped(p: seq<Term>, total: real)
  {
    5 <= |p| <= 7 && Distinct(p) && PositiveWeights(p) && TotalWeight(p) == total
  }

  /**
   * Every profile names five to seven distinct indicators with positive weights summing to
   * 1.0, except the Real Estate short-horizon profile, whose weights sum to 0.80.
   */
  lemma ProfileShape(s: Sector, short: bool)
    ensures Shaped(Profile(s, short), if s == RealEstate && short then 0.80 else 1.0)
  {
    match s
    case Technology => TechnologyShape(short);
    case Healthcare => HealthcareShape(short);
    case FinancialServices => FinancialServicesShape(short);
    case ConsumerCyclical => ConsumerCyclicalShape(short);
    case ConsumerDefensive => ConsumerDefensiveShape(short);
    case Energy => EnergyShape(short);
    case Industrials => IndustrialsShape(short);
    case RealEstate => RealEstateShape(short);
    case Utilities => UtilitiesShape(short);
    case BasicMaterials => BasicMaterialsShape(short);
    case CommunicationServices => CommunicationServicesShape(short);
    case Other => OtherShape(short);
  }

  lemma TechnologyShape(short: bool)
    ensures Shaped(Profile(Technology, short), 1.0)
  {
    ExpandTotalWeight(Profile(Technology, short));
  }

  lemma HealthcareShape(short: bool)
    ensures Shaped(Profile(Healthcare, short), 1.0)
  {
    ExpandTotalWeight(Profile(Healthcare, short));
  }

  lemma FinancialServicesShape(short: bool)
    ensures Shaped(Profile(FinancialServices, short), 1.0)
  {
    ExpandTotalWeight(Profile(FinancialServices, short));
  }

  lemma ConsumerCyclicalShape(short: bool)
    ensures Shaped(Profile(ConsumerCyclical, short), 1.0)
  {
    ExpandTotalWeight(Profile(ConsumerCyclical, short));
  }

  lemma ConsumerDefensiveShape(short: bool)
    ensures Shaped(Profile(ConsumerDefensive, short), 1.0)
  {
    ExpandTotalWeight(Profile(ConsumerDefensive, short));
  }

  lemma EnergyShape(short: bool)
    ensures Shaped(Profile(Energy, short), 1.0)
  {
    ExpandTotalWeight(Profile(Energy, short));
  }

  lemma IndustrialsShape(short: bool)
    ensures Shaped(Profile(Industrials, short), 1.0)
  {
    ExpandTotalWeight(Profile(Industrials, short));
  }

  lemma RealEstateShape(short: bool)
    ensures Shaped(Profile(RealEstate, short), if short then 0.80 else 1.0)
  {
    ExpandTotalWeight(Profile(RealEstate, short));
  }

  lemma UtilitiesShape(short: bool)
    ensures Shaped(Profile(Utilities, short), 1.0)
  {
    ExpandTotalWeight(Profile(Utilities, short));
  }

  lemma BasicMaterialsShape(short: bool)
    ensures Shaped(Profile(BasicMaterials, short), 1.0)
  {
    ExpandTotalWeight(Profile(BasicMaterials, short));
  }

  lemma CommunicationServicesShape(short: bool)
    ensures Shaped(Profile(CommunicationServices, short), 1.0)
  {
    ExpandTotalWeight(Profile(CommunicationServices, short));
  }

  lemma OtherShape(short: bool)
    ensures Shaped(Profile(Other, short), 1.0)
  {
    ExpandTotalWeight(Profile(Other, short));
  }

  /** Unfolds Σ weight over a profile of at most seven entries. */
  lemma ExpandTotalWeight(p: seq<Term>)
    requires |p| <= 7
    ensures TotalWeight(p) == (if |p| > 0 then p[0].weight else 0.0) + (if |p| > 1 then p[1].weight else 0.0)
                              + (if |p| > 2 then p[2].weight else 0.0) + (if |p| > 3 then p[3].weight else 0.0)
                              + (if |p| > 4 then p[4].weight else 0.0) + (if |p| > 5 then p[5].weight else 0.0)
                              + (if |p| > 6 then p[6].weight else 0.0)
  {
    if p != [] {
      ExpandTotalWeight(p[..|p| - 1]);
    }
  }

  /** The policy as the scorer applies it: sector value and lower-cased horizon to a profile. */
  function Select(sector: Value, horizon: string): (p: seq<Term>)
    ensures p == Profile(SectorOf(sector), IsShort(horizon))
    ensures TotalWeight(p) > 0.0
  {
    ProfileShape(SectorOf(sector), IsShort(horizon));
    Profile(SectorOf(sector), IsShort(horizon))
  }
}
