/**
 * The dashboard's reading of a quote: the valuation classifier over P/E, PEG and P/B,
 * the verdict banner for the global score, and the colour of each indicator tile.
 */
module Valuation {
  import opened Financials

  // ---------------------------------------------------------------- valuation signals

  datatype Ratio = PE | PEG | PB

  /** Green: under-valued; yellow: balanced; red: over-valued. */
  datatype Level = Green | Yellow | Red

  /** One row of the analysis: which ratio, its value and how it reads. */
  datatype Signal = Signal(ratio: Ratio, value: real, level: Level)

  /**
   * The analysis: no usable ratio (the insufficient-data message), the signals with their
   * majority verdict, or a comparison of a text value with 0, which raises.
   */
  datatype Analysis = Insufficient | Assessed(signals: seq<Signal>, verdict: Level) | Raises

  /** Below this a ratio reads green. */
  function GreenBelow(r: Ratio): real
  {
    match r
    case PE => 15.0
    case PEG => 1.0
    case PB => 1.0
  }

  /** Below this (and not green) a ratio reads yellow; from it on, red. */
  function YellowBelow(r: Ratio): real
  {
    match r
    case PE => 25.0
    case PEG => 2.0
    case PB => 3.0
  }

  function Classify(r: Ratio, x: real): (l: Level)
    ensures l == Green <==> x < GreenBelow(r)
    ensures l == Yellow <==> GreenBelow(r) <= x < YellowBelow(r)
    ensures l == Red <==> YellowBelow(r) <= x
  {
    if x < GreenBelow(r) then Green
    else if x < YellowBelow(r) then Yellow
    else Red
  }

  /** Green above yellow above red. */
  function Cheapness(l: Level): int
  {
    match l
    case Green => 2
    case Yellow => 1
    case Red => 0
  }

  /** A higher ratio never reads cheaper. */
  lemma ClassifyAntitone(r: Ratio, x: real, y: real)
    requires x <= y
    ensures Cheapness(Classify(r, y)) <= Cheapness(Classify(r, x))
  {
  }

  /** `info.get('trailingPE') or info.get('forwardPE')`. */
  function PickPE(info: Info): Value
  {
    if Truthy(Get(info, "trailingPE")) then Get(info, "trailingPE") else Get(info, "forwardPE")
  }

  /** The signal a present, positive ratio contributes; none otherwise. */
  function SignalFor(r: Ratio, v: Value): (s: seq<Signal>)
    ensures |s| <= 1
    ensures s != [] <==> v.Num? && v.x > 0.0
    ensures s != [] ==> s[0] == Signal(r, v.x, Classify(r, v.x))
    ensures forall x :: x in s ==> x.ratio == r && x.value > 0.0 && x.level == Classify(r, x.value)
  {
    if v.Num? && v.x > 0.0 then [Signal(r, v.x, Classify(r, v.x))] else []
  }

  function Count(signals: seq<Signal>, l: Level): (n: nat)
    ensures n <= |signals|
  {
    if signals == [] then 0
    else Count(signals[..|signals| - 1], l) + (if signals[|signals| - 1].level == l then 1 else 0)
  }

  /** Green when greens outnumber reds, red when reds outnumber greens, balanced on a tie. */
  function Verdict(signals: seq<Signal>): (l: Level)
    ensures l == Green <==> Count(signals, Green) > Count(signals, Red)
    ensures l == Red <==> Count(signals, Red) > Count(signals, Green)
    ensures l == Yellow <==> Count(signals, Red) == Count(signals, Green)
  {
    var greens := Count(signals, Green);
    var reds := Count(signals, Red);
    if greens > reds then Green else if reds > greens then Red else Yellow
  }

  /** `get_valuation_analysis(info)`. */
  function Analyze(info: Info): Analysis
  {
    var pe := PickPE(info);
    var peg := Get(info, "pegRatio");
    var pb := Get(info, "priceToBook");
    if pe.Text? || peg.Text? || pb.Text? then Raises
    else
      var signals := Signals(info);
      if signals == [] then Insufficient else Assessed(signals, Verdict(signals))
  }

  /**
   * One of the three checks: `v is not None and v > 0` (raising on text), then the band
   * and the append.
   */
  method Check(signals: seq<Signal>, r: Ratio, v: Value) returns (next: seq<Signal>, raises: bool)
    ensures raises <==> v.Text?
    ensures !raises ==> next == signals + SignalFor(r, v)
  {
    next, raises := signals, false;
    if v != Null {
      if v.Text? {
        return signals, true;
      }
      if v.x > 0.0 {
        next := signals + [Signal(r, v.x, Classify(r, v.x))];
      }
    }
  }

  /** `get_valuation_analysis`: the three checks append to `signals` in turn, then the vote. */
  method GetValuationAnalysis(info: Info) returns (a: Analysis)
    ensures a == Analyze(info)
  {
    var pe := PickPE(info);
    var peg := Get(info, "pegRatio");
    var pb := Get(info, "priceToBook");
    var signals: seq<Signal> := [];
    var raises;
    signals, raises := Check(signals, PE, pe);
    if raises {
      return Raises;
    }
    signals, raises := Check(signals, PEG, peg);
    if raises {
      return Raises;
    }
    signals, raises := Check(signals, PB, pb);
    if raises {
      return Raises;
    }
    assert signals == Signals(info);
    if signals == [] {
      return Insufficient;
    }
    var greens := Count(signals, Green);
    var reds := Count(signals, Red);
    var verdict := if greens > reds then Green else if reds > greens then Red else Yellow;
    a := Assessed(signals, verdict);
  }

  function Position(r: Ratio): int
  {
    match r
    case PE => 0
    case PEG => 1
    case PB => 2
  }

  /** The signals of the analysis, the three possible ones in their fixed order. */
  function Signals(info: Info): seq<Signal>
  {
    SignalFor(PE, PickPE(info)) + SignalFor(PEG, Get(info, "pegRatio")) + SignalFor(PB, Get(info, "priceToBook"))
  }

  /** Joining one optional signal per ratio, in ratio order. */
  lemma JoinInOrder(a: seq<Signal>, b: seq<Signal>, c: seq<Signal>)
    requires |a| <= 1 && |b| <= 1 && |c| <= 1
    requires (forall x :: x in a ==> x.ratio == PE) && (forall x :: x in b ==> x.ratio == PEG)
    requires forall x :: x in c ==> x.ratio == PB
    ensures var s := a + b + c;
            && |s| <= 3
            && (forall i, j :: 0 <= i < j < |s| ==> Position(s[i].ratio) < Position(s[j].ratio))
            && (forall x :: x in s <==> x in a || x in b || x in c)
  {
    var s := a + b + c;
    forall i, j | 0 <= i < j < |s| ensures Position(s[i].ratio) < Position(s[j].ratio) {
      if i < |a| {
        assert s[i] in a;
        if j < |a| + |b| {
          assert s[j] == b[0];
        } else {
          assert s[j] == c[0];
        }
      } else {
        assert s[i] == b[0] && s[j] == c[0];
      }
    }
  }

  /**
   * At most three signals, in the order P/E, PEG, P/B (so one per ratio); each holds a
   * positive value and the level its bands give it.
   */
  lemma SignalsOrdered(info: Info)
    ensures Analyze(info).Assessed? ==> Analyze(info).signals == Signals(info)
    ensures var s := Signals(info);
            && |s| <= 3
            && (forall i, j :: 0 <= i < j < |s| ==> Position(s[i].ratio) < Position(s[j].ratio))
            && (forall i :: 0 <= i < |s| ==> s[i].value > 0.0 && s[i].level == Classify(s[i].ratio, s[i].value))
  {
    var a := SignalFor(PE, PickPE(info));
    var b := SignalFor(PEG, Get(info, "pegRatio"));
    var c := SignalFor(PB, Get(info, "priceToBook"));
    JoinInOrder(a, b, c);
    var s := a + b + c;
    forall i | 0 <= i < |s| ensures s[i].value > 0.0 && s[i].level == Classify(s[i].ratio, s[i].value) {
      assert s[i] in s;
    }
  }

  /** A ratio is listed exactly when its value (after the P/E fallback) is a positive number. */
  lemma SignalsPresent(info: Info)
    ensures (exists x :: x in Signals(info) && x.ratio == PE) <==> PickPE(info).Num? && PickPE(info).x > 0.0
    ensures (exists x :: x in Signals(info) && x.ratio == PEG) <==> Get(info, "pegRatio").Num? && Get(info, "pegRatio").x > 0.0
    ensures (exists x :: x in Signals(info) && x.ratio == PB) <==> Get(info, "priceToBook").Num? && Get(info, "priceToBook").x > 0.0
  {
    var a := SignalFor(PE, PickPE(info));
    var b := SignalFor(PEG, Get(info, "pegRatio"));
    var c := SignalFor(PB, Get(info, "priceToBook"));
    JoinInOrder(a, b, c);
    if a != [] {
      assert a[0] in Signals(info);
    }
    if b != [] {
      assert b[0] in Signals(info);
    }
    if c != [] {
      assert c[0] in Signals(info);
    }
  }

  /** With no positive ratio and no text, the analysis reports insufficient data. */
  lemma InsufficientExactly(info: Info)
    ensures Analyze(info) == Insufficient <==>
              && !(PickPE(info).Num? && PickPE(info).x > 0.0) && !PickPE(info).Text?
              && !(Get(info, "pegRatio").Num? && Get(info, "pegRatio").x > 0.0) && !Get(info, "pegRatio").Text?
              && !(Get(info, "priceToBook").Num? && Get(info, "priceToBook").x > 0.0) && !Get(info, "priceToBook").Text?
  {
  }

  /**
   * The P/E falls back to the forward figure when the trailing one is missing or zero,
   * unlike the scorer's own lookup, which never falls back.
   */
  lemma ForwardPEFallback(info: Info, x: real)
    requires Get(info, "trailingPE") == Null || Get(info, "trailingPE") == Num(0.0)
    requires Get(info, "forwardPE") == Num(x) && x > 0.0
    requires !Get(info, "pegRatio").Text? && !Get(info, "priceToBook").Text?
    ensures Analyze(info).Assessed? && Analyze(info).signals[0] == Signal(PE, x, Classify(PE, x))
  {
  }

  /** A single signal decides the verdict alone; a lone yellow reads as balanced. */
  lemma {:induction false} SingleSignalVerdict(s: Signal)
    ensures Verdict([s]) == s.level
  {
    assert [s][..0] == [];
  }

  /** Adding a green signal never makes the verdict dearer; adding a red one never cheaper. */
  lemma {:induction false} VerdictMonotone(signals: seq<Signal>, s: Signal)
    ensures s.level == Green ==> Cheapness(Verdict(signals)) <= Cheapness(Verdict(signals + [s]))
    ensures s.level == Red ==> Cheapness(Verdict(signals + [s])) <= Cheapness(Verdict(signals))
  {
    assert (signals + [s])[..|signals|] == signals;
  }

  // ---------------------------------------------------------------- global score banner

  /** The banner shown for the global score on 0-100. */
  datatype Rating = StrongBuy | Buy | Hold | Caution | Avoid

  function Rate(score: real): (r: Rating)
    ensures r == StrongBuy <==> 80.0 <= score
    ensures r == Buy <==> 65.0 <= score < 80.0
    ensures r == Hold <==> 50.0 <= score < 65.0
    ensures r == Caution <==> 35.0 <= score < 50.0
    ensures r == Avoid <==> score < 35.0
  {
    if score >= 80.0 then StrongBuy
    else if score >= 65.0 then Buy
    else if score >= 50.0 then Hold
    else if score >= 35.0 then Caution
    else Avoid
  }

  function RatingText(r: Rating): string
  {
    match r
    case StrongBuy => "ACHAT FORT"
    case Buy => "ACHAT"
    case Hold => "NEUTRE"
    case Caution => "PRUDENCE"
    case Avoid => "\U{00C9}VITER"
  }

  /** The five colours shared by the banner and the tiles. */
  const DarkGreen := "#00CC00"
  const LightGreen := "#66FF66"
  const Gold := "#FFD700"
  const Orange := "#FFA500"
  const Crimson := "#FF4B4B"

  function RatingColour(r: Rating): string
  {
    match r
    case StrongBuy => DarkGreen
    case Buy => LightGreen
    case Hold => Gold
    case Caution => Orange
    case Avoid => Crimson
  }

  function Strength(r: Rating): int
  {
    match r
    case StrongBuy => 4
    case Buy => 3
    case Hold => 2
    case Caution => 1
    case Avoid => 0
  }

  /** A higher global score never gets a weaker banner. */
  lemma RateMonotone(a: real, b: real)
    requires a <= b
    ensures Strength(Rate(a)) <= Strength(Rate(b))
  {
  }

  // ---------------------------------------------------------------- indicator tiles

  /** The colour of an indicator's tile for its score on 0-10. */
  function TileColour(score: real): (c: string)
    ensures c == DarkGreen <==> 8.0 <= score
    ensures c == LightGreen <==> 6.0 <= score < 8.0
    ensures c == Gold <==> 4.0 <= score < 6.0
    ensures c == Orange <==> 2.0 <= score < 4.0
    ensures c == Crimson <==> score < 2.0
  {
    if score >= 8.0 then DarkGreen
    else if score >= 6.0 then LightGreen
    else if score >= 4.0 then Gold
    else if score >= 2.0 then Orange
    else Crimson
  }

  /**
   * The tile bands are not the banner's bands scaled down: on a 0-10 score and the same
   * score times ten, the two colours agree exactly on these ranges (an indicator at 6 is
   * light green while a global 60 is gold, for instance).
   */
  lemma TileMatchesBanner(score: real)
    ensures TileColour(score) == RatingColour(Rate(score * 10.0)) <==>
              6.5 <= score || 5.0 <= score < 6.0 || 3.5 <= score < 4.0 || score < 2.0
  {
  }
}
