/**
 * The service-independent breakdown every calculator is projected into
 * (src/types/comparison.ts): an ordered list of labelled costs (the label is the field `name` here, `label` being a Dafny keyword) and a total.
 */
module CostTypes {

  datatype CostItem = CostItem(name: string, cost: real)

  datatype GenericCostBreakdown = GenericCostBreakdown(items: seq<CostItem>, total: real)

  /** The sum of the item costs, left to right. */
  function SumCosts(items: seq<CostItem>): real
  {
    if items == [] then 0.0 else items[0].cost + SumCosts(items[1..])
  }

  /** The labels of `items`, in order. */
  function Labels(items: seq<CostItem>): (labels: seq<string>)
    ensures |labels| == |items|
    ensures forall i :: 0 <= i < |items| ==> labels[i] == items[i].name
  {
    if items == [] then [] else [items[0].name] + Labels(items[1..])
  }

  /** The costs of `items`, in order. */
  function Costs(items: seq<CostItem>): (costs: seq<real>)
    ensures |costs| == |items|
    ensures forall i :: 0 <= i < |items| ==> costs[i] == items[i].cost
  {
    if items == [] then [] else [items[0].cost] + Costs(items[1..])
  }

  /** A breakdown is consistent when its total is exactly the sum of its items. */
  predicate Consistent(b: GenericCostBreakdown)
  {
    SumCosts(b.items) == b.total
  }

  /**
   * `(part / whole) * 100`, the share of `whole` that `part` represents.
   * The percentage times the whole is a hundred times the part. A part no
   * larger than a positive whole is at most 100 percent, and a non-negative
   * one is at least 0 percent.
   */
  function Percentage(part: real, whole: real): (p: real)
    requires whole != 0.0
    ensures whole > 0.0 && part <= whole ==> p <= 100.0
    ensures whole > 0.0 && part >= 0.0 ==> p >= 0.0
    ensures part == whole ==> p == 100.0
    ensures p * whole == 100.0 * part
  {
    var q := part / whole;
    assert q * whole == part;
    q * 100.0
  }
}
