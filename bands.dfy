/**
 * The shape shared by the indicator functions: an `if/elif` chain of strict comparisons
 * against decimal thresholds, each branch returning a fixed score, with a final `else`.
 * A table lists the branches in source order.
 */
module Bands {

  /** One `elif` branch: the threshold compared against and the score returned. */
  datatype Step = Step(bound: real, score: real)

  /** A whole chain: the branches in order and the score of the final `else`. */
  datatype Table = Table(steps: seq<Step>, otherwise: real)

  function Rest(t: Table): (r: Table)
    requires t.steps != []
    ensures |r.steps| == |t.steps| - 1
  {
    Table(t.steps[1..], t.otherwise)
  }

  /** Every score the chain can return. */
  function Scores(t: Table): set<real>
  {
    (set i | 0 <= i < |t.steps| :: t.steps[i].score) + {t.otherwise}
  }

  /** Higher is better: `if x > b0: s0 elif x > b1: s1 ... else: otherwise`. */
  function Above(t: Table, x: real): (r: real)
    decreases |t.steps|
    ensures r in Scores(t)
  {
    if t.steps == [] then t.otherwise
    else if x > t.steps[0].bound then t.steps[0].score
    else
      var r := Above(Rest(t), x);
      assert r in Scores(Rest(t));
      assert r == t.otherwise || exists i :: 1 <= i < |t.steps| && r == t.steps[i].score;
      r
  }

  /** Lower is better: `if x < b0: s0 elif x < b1: s1 ... else: otherwise`. */
  function Below(t: Table, x: real): (r: real)
    decreases |t.steps|
    ensures r in Scores(t)
  {
    if t.steps == [] then t.otherwise
    else if x < t.steps[0].bound then t.steps[0].score
    else
      var r := Below(Rest(t), x);
      assert r in Scores(Rest(t));
      assert r == t.otherwise || exists i :: 1 <= i < |t.steps| && r == t.steps[i].score;
      r
  }

  /** Earlier branches never score lower than later ones, nor than the final `else`. */
  predicate Ranked(t: Table)
  {
    && (forall i :: 0 <= i < |t.steps| ==> t.otherwise <= t.steps[i].score)
    && (forall i, j :: 0 <= i < j < |t.steps| ==> t.steps[j].score <= t.steps[i].score)
  }

  /** Thresholds of a higher-is-better chain, strictly decreasing. */
  predicate BoundsDecreasing(t: Table)
  {
    forall i, j :: 0 <= i < j < |t.steps| ==> t.steps[j].bound < t.steps[i].bound
  }

  /** Thresholds of a lower-is-better chain, strictly increasing. */
  predicate BoundsIncreasing(t: Table)
  {
    forall i, j :: 0 <= i < j < |t.steps| ==> t.steps[i].bound < t.steps[j].bound
  }

  /** Every score of the chain lies in [lo, hi]. */
  predicate Within(t: Table, lo: real, hi: real)
  {
    && lo <= t.otherwise <= hi
    && (forall i :: 0 <= i < |t.steps| ==> lo <= t.steps[i].score <= hi)
  }

  lemma ScoresWithin(t: Table, lo: real, hi: real)
    requires Within(t, lo, hi)
    ensures forall r :: r in Scores(t) ==> lo <= r <= hi
  {
  }

  /** `Ranked`, checked on neighbouring branches only. */
  predicate RankedStepwise(t: Table)
  {
    && (forall i :: 0 < i < |t.steps| ==> t.steps[i].score <= t.steps[i - 1].score)
    && (t.steps != [] ==> t.otherwise <= t.steps[|t.steps| - 1].score)
  }

  /** `BoundsDecreasing`, checked on neighbouring branches only. */
  predicate DecreasingStepwise(t: Table)
  {
    forall i :: 0 < i < |t.steps| ==> t.steps[i].bound < t.steps[i - 1].bound
  }

  /** `BoundsIncreasing`, checked on neighbouring branches only. */
  predicate IncreasingStepwise(t: Table)
  {
    forall i :: 0 < i < |t.steps| ==> t.steps[i - 1].bound < t.steps[i].bound
  }

  lemma {:induction false} RankedPair(t: Table, i: nat, j: nat)
    requires RankedStepwise(t) && i <= j < |t.steps|
    ensures t.steps[j].score <= t.steps[i].score
    decreases j - i
  {
    if i < j {
      RankedPair(t, i + 1, j);
    }
  }

  /** Neighbouring comparisons are enough: a chain ranked stepwise is ranked. */
  lemma RankedFromStepwise(t: Table)
    requires RankedStepwise(t)
    ensures Ranked(t)
  {
    forall i, j | 0 <= i < j < |t.steps| ensures t.steps[j].score <= t.steps[i].score {
      RankedPair(t, i, j);
    }
    forall i | 0 <= i < |t.steps| ensures t.otherwise <= t.steps[i].score {
      RankedPair(t, i, |t.steps| - 1);
    }
  }

  lemma {:induction false} DecreasingPair(t: Table, i: nat, j: nat)
    requires DecreasingStepwise(t) && i < j < |t.steps|
    ensures t.steps[j].bound < t.steps[i].bound
    decreases j - i
  {
    if i + 1 < j {
      DecreasingPair(t, i + 1, j);
    }
  }

  lemma DecreasingFromStepwise(t: Table)
    requires DecreasingStepwise(t)
    ensures BoundsDecreasing(t)
  {
    forall i, j | 0 <= i < j < |t.steps| ensures t.steps[j].bound < t.steps[i].bound {
      DecreasingPair(t, i, j);
    }
  }

  lemma {:induction false} IncreasingPair(t: Table, i: nat, j: nat)
    requires IncreasingStepwise(t) && i < j < |t.steps|
    ensures t.steps[i].bound < t.steps[j].bound
    decreases j - i
  {
    if i + 1 < j {
      IncreasingPair(t, i + 1, j);
    }
  }

  lemma IncreasingFromStepwise(t: Table)
    requires IncreasingStepwise(t)
    ensures BoundsIncreasing(t)
  {
    forall i, j | 0 <= i < j < |t.steps| ensures t.steps[i].bound < t.steps[j].bound {
      IncreasingPair(t, i, j);
    }
  }

  lemma RankedRest(t: Table)
    requires Ranked(t) && t.steps != []
    ensures Ranked(Rest(t))
    ensures forall r :: r in Scores(t) ==> r <= t.steps[0].score
  {
    forall r | r in Scores(t) ensures r <= t.steps[0].score {
      if r != t.otherwise {
        var i :| 0 <= i < |t.steps| && r == t.steps[i].score;
      }
    }
  }

  /** A higher-is-better chain is monotone: a larger figure never scores lower. */
  lemma {:induction false} AboveMonotone(t: Table, x: real, y: real)
    requires Ranked(t) && x <= y
    ensures Above(t, x) <= Above(t, y)
    decreases |t.steps|
  {
    if t.steps != [] {
      RankedRest(t);
      if y <= t.steps[0].bound {
        AboveMonotone(Rest(t), x, y);
      }
    }
  }

  /** A lower-is-better chain is antitone: a larger figure never scores higher. */
  lemma {:induction false} BelowAntitone(t: Table, x: real, y: real)
    requires Ranked(t) && x <= y
    ensures Below(t, y) <= Below(t, x)
    decreases |t.steps|
  {
    if t.steps != [] {
      RankedRest(t);
      if t.steps[0].bound <= x {
        BelowAntitone(Rest(t), x, y);
      }
    }
  }

  /**
   * Band `i` of a higher-is-better chain is exactly the interval (bound_i, bound_(i-1)]:
   * every figure in it gets score_i, and the chain's top band is unbounded above.
   */
  lemma {:induction false} AboveBand(t: Table, i: nat, x: real)
    requires BoundsDecreasing(t) && i < |t.steps|
    requires t.steps[i].bound < x && (i == 0 || x <= t.steps[i - 1].bound)
    ensures Above(t, x) == t.steps[i].score
    decreases i
  {
    if i > 0 {
      AboveBand(Rest(t), i - 1, x);
    }
  }

  /** A figure at or below every threshold of a higher-is-better chain falls to the final `else`. */
  lemma {:induction false} AboveFloor(t: Table, x: real)
    requires forall i :: 0 <= i < |t.steps| ==> x <= t.steps[i].bound
    ensures Above(t, x) == t.otherwise
    decreases |t.steps|
  {
    if t.steps != [] {
      AboveFloor(Rest(t), x);
    }
  }

  /**
   * The comparisons are strict: a figure exactly on threshold `i` of a higher-is-better
   * chain gets the next lower band (or the final `else`).
   */
  lemma AboveAtThreshold(t: Table, i: nat)
    requires BoundsDecreasing(t) && i < |t.steps|
    ensures Above(t, t.steps[i].bound) == if i + 1 < |t.steps| then t.steps[i + 1].score else t.otherwise
  {
    var x := t.steps[i].bound;
    if i + 1 < |t.steps| {
      AboveBand(t, i + 1, x);
    } else {
      AboveFloor(t, x);
    }
  }

  /** Band `i` of a lower-is-better chain is exactly the interval [bound_(i-1), bound_i). */
  lemma {:induction false} BelowBand(t: Table, i: nat, x: real)
    requires BoundsIncreasing(t) && i < |t.steps|
    requires x < t.steps[i].bound && (i == 0 || t.steps[i - 1].bound <= x)
    ensures Below(t, x) == t.steps[i].score
    decreases i
  {
    if i > 0 {
      BelowBand(Rest(t), i - 1, x);
    }
  }

  /** A figure at or above every threshold of a lower-is-better chain falls to the final `else`. */
  lemma {:induction false} BelowCeiling(t: Table, x: real)
    requires forall i :: 0 <= i < |t.steps| ==> t.steps[i].bound <= x
    ensures Below(t, x) == t.otherwise
    decreases |t.steps|
  {
    if t.steps != [] {
      BelowCeiling(Rest(t), x);
    }
  }

  /** A figure exactly on threshold `i` of a lower-is-better chain gets the next band. */
  lemma BelowAtThreshold(t: Table, i: nat)
    requires BoundsIncreasing(t) && i < |t.steps|
    ensures Below(t, t.steps[i].bound) == if i + 1 < |t.steps| then t.steps[i + 1].score else t.otherwise
  {
    var x := t.steps[i].bound;
    if i + 1 < |t.steps| {
      BelowBand(t, i + 1, x);
    } else {
      BelowCeiling(t, x);
    }
  }
}
