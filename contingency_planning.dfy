/**
 * The contingency planner: a base cost and a whole-number percentage from 0
 * to 50 give the contingency reserve and the total project cost.
 */
module ContingencyPlanning {
  import opened Numeric

  /** The slider's value: whole numbers from 0 to 50 in steps of 1. */
  type Percentage = p: int | 0 <= p <= 50 witness 10

  /** The planner's inputs: the slider's single value and the base cost. */
  datatype Planner = Planner(percentage: Percentage, baseCost: real)

  /** The starting inputs: 10 percent of a base of 1000000. */
  function InitialPlanner(): (p: Planner)
    ensures p.percentage == 10 && p.baseCost == 1000000.0
  {
    Planner(10, 1000000.0)
  }

  /** `calculateContingencyCost`: `(baseCost * percentage) / 100`. */
  function ContingencyCost(p: Planner): (cost: real)
    ensures p.percentage == 0 || p.baseCost == 0.0 ==> cost == 0.0
  {
    (p.baseCost * p.percentage as real) / 100.0
  }

  /** The contingency is `percentage` hundredths of the base: for a non-negative base, at most half of it. */
  lemma ContingencyBounds(p: Planner)
    ensures ContingencyCost(p) * 100.0 == p.baseCost * p.percentage as real
    ensures p.baseCost >= 0.0 ==> 0.0 <= ContingencyCost(p) <= p.baseCost / 2.0
  {
    var b, x := p.baseCost, p.percentage as real;
    assert ContingencyCost(p) == b * x / 100.0;
    if b >= 0.0 {
      HundredthsBounds(b, x);
    }
  }

  /** `b * x / 100` for `0 <= x <= 50` lies between 0 and half of a non-negative `b`. */
  lemma HundredthsBounds(b: real, x: real)
    requires b >= 0.0 && 0.0 <= x <= 50.0
    ensures 0.0 <= b * x / 100.0 <= b / 2.0
  {
    ScaleKeepsOrder(b, 0.0, x);
    ScaleKeepsOrder(b, x, 50.0);
  }

  /** The total project cost: the base plus the contingency. */
  function TotalProjectCost(p: Planner): real {
    p.baseCost + ContingencyCost(p)
  }

  /** For a non-negative base, the total lies between the base and one and a half times the base. */
  lemma TotalProjectCostBounds(p: Planner)
    requires p.baseCost >= 0.0
    ensures p.baseCost <= TotalProjectCost(p) <= p.baseCost * 1.5
  {
    ContingencyBounds(p);
  }

  /** The base-cost box's `onChange`: `parseFloat(value) || 0`; the percentage is kept. */
  function SetBaseCost(p: Planner, value: string, parse: Parser): (q: Planner)
    ensures q.percentage == p.percentage
    ensures parse(value).None? ==> q.baseCost == 0.0
    ensures parse(value).Some? ==> q.baseCost == parse(value).value
  {
    p.(baseCost := Coerce(parse, value))
  }

  /** The slider's `onValueChange`; the base is kept. */
  function SetPercentage(p: Planner, percentage: Percentage): (q: Planner)
    ensures q.percentage == percentage && q.baseCost == p.baseCost
  {
    p.(percentage := percentage)
  }

  /** With the starting inputs the contingency is 100000 and the total 1100000. */
  lemma InitialPlannerCosts()
    ensures ContingencyCost(InitialPlanner()) == 100000.0
    ensures TotalProjectCost(InitialPlanner()) == 1100000.0
  {
  }

  /** Scaling by a non-negative factor keeps the order. */
  lemma ScaleKeepsOrder(b: real, x: real, y: real)
    requires b >= 0.0 && x <= y
    ensures b * x <= b * y
  {
    assert b * y - b * x == b * (y - x);
  }

  /** For a non-negative base, a larger percentage never gives a smaller contingency. */
  lemma ContingencyMonotone(p: Planner, percentage: Percentage)
    requires p.baseCost >= 0.0 && p.percentage <= percentage
    ensures ContingencyCost(p) <= ContingencyCost(SetPercentage(p, percentage))
  {
    var b, x, y := p.baseCost, p.percentage as real, percentage as real;
    assert ContingencyCost(p) == b * x / 100.0;
    assert ContingencyCost(SetPercentage(p, percentage)) == b * y / 100.0;
    HundredthsMonotone(b, x, y);
  }

  /** `b * x / 100` grows with `x` for a non-negative `b`. */
  lemma HundredthsMonotone(b: real, x: real, y: real)
    requires b >= 0.0 && x <= y
    ensures b * x / 100.0 <= b * y / 100.0
  {
    ScaleKeepsOrder(b, x, y);
  }

  /** The contingency scales with the base: doubling the base doubles it. */
  lemma ContingencyLinearInBase(p: Planner, factor: real)
    ensures ContingencyCost(p.(baseCost := p.baseCost * factor)) == ContingencyCost(p) * factor
  {
    assert p.baseCost * factor * p.percentage as real == p.baseCost * p.percentage as real * factor;
  }
}
