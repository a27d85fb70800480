/** The Lambda cost calculator (src/utils/lambdaCalculator.ts). */
module LambdaCalculator {
  import opened CostTypes
  import opened LambdaTypes

  const REQUEST_PRICE_PER_MILLION: real := 0.20

  /** Memory in GB times duration in seconds times invocations. */
  function GbSeconds(config: LambdaConfig): real
  {
    (config.memoryMB / 1024.0) * (config.avgDurationMs / 1000.0) * config.monthlyInvocations
  }

  function CalculateLambdaCosts(config: LambdaConfig): (b: LambdaCostBreakdown)
    ensures b.totalCost == b.requestCost + b.computeCost
    ensures b.requestCost == config.monthlyInvocations * 0.0000002
    ensures b.computeCost == GbSeconds(config) * ArchitectureMetadata(config.architecture).pricePerGBSecond
  {
    var requestCost := (config.monthlyInvocations / 1000000.0) * REQUEST_PRICE_PER_MILLION;
    var gbSeconds := GbSeconds(config);
    var pricePerGBSecond := ArchitectureMetadata(config.architecture).pricePerGBSecond;
    var computeCost := gbSeconds * pricePerGBSecond;
    var totalCost := requestCost + computeCost;
    LambdaCostBreakdown(requestCost, computeCost, totalCost)
  }

  function LambdaCostToGeneric(b: LambdaCostBreakdown): (g: GenericCostBreakdown)
    ensures Labels(g.items) == ["Lambda Requests", "Compute Duration (GB-seconds)"]
    ensures Costs(g.items) == [b.requestCost, b.computeCost]
    ensures g.total == b.totalCost
  {
    GenericCostBreakdown(
      [ CostItem("Lambda Requests", b.requestCost),
        CostItem("Compute Duration (GB-seconds)", b.computeCost) ],
      b.totalCost)
  }

  // ---------------------------------------------------------------------
  // Properties
  // ---------------------------------------------------------------------

  /** The projected breakdown's items add up to its total. */
  lemma LambdaGenericIsConsistent(config: LambdaConfig)
    ensures Consistent(LambdaCostToGeneric(CalculateLambdaCosts(config)))
  {
    var b := CalculateLambdaCosts(config);
    var items := LambdaCostToGeneric(b).items;
    assert SumCosts(items[1..]) == b.computeCost;
  }

  /** No invocations, no cost. */
  lemma ZeroInvocationsCostNothing(config: LambdaConfig)
    requires config.monthlyInvocations == 0.0
    ensures CalculateLambdaCosts(config).totalCost == 0.0
  {
  }

  /** For the same non-negative quantities, arm never costs more than x86. */
  lemma ArmNeverDearer(config: LambdaConfig)
    requires config.memoryMB >= 0.0 && config.monthlyInvocations >= 0.0 && config.avgDurationMs >= 0.0
    ensures CalculateLambdaCosts(config.(architecture := Arm)).totalCost
         <= CalculateLambdaCosts(config.(architecture := X86)).totalCost
  {
    var gb := GbSeconds(config);
    assert (config.memoryMB / 1024.0) * (config.avgDurationMs / 1000.0) >= 0.0;
    assert gb >= 0.0;
    assert gb * ArchitectureMetadata(Arm).pricePerGBSecond <= gb * ArchitectureMetadata(X86).pricePerGBSecond;
  }

  /** Worked example: x86, 1024 MB, one million invocations of 200 ms. */
  lemma X86Example()
    ensures GbSeconds(LambdaConfig(X86, 1024.0, 1000000.0, 200.0)) == 200000.0
    ensures CalculateLambdaCosts(LambdaConfig(X86, 1024.0, 1000000.0, 200.0))
         == LambdaCostBreakdown(0.2, 3.33334, 3.53334)
  {
  }
}
