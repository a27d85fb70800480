/** The ECS Fargate cost calculator (src/utils/ecsCalculator.ts). */
module EcsCalculator {
  import opened CostTypes
  import opened EcsTypes

  function CalculateEcsCosts(config: EcsConfig): (b: EcsCostBreakdown)
    ensures b.totalCost == b.cpuCost + b.memoryCost
    ensures b.cpuCost == config.vCPU * ArchitectureMetadata(config.architecture).pricePerVCPUHour * config.monthlyHours
    ensures b.memoryCost == config.memoryGB * ArchitectureMetadata(config.architecture).pricePerGBHour * config.monthlyHours
  {
    var metadata := ArchitectureMetadata(config.architecture);
    var cpuCost := config.vCPU * metadata.pricePerVCPUHour * config.monthlyHours;
    var memoryCost := config.memoryGB * metadata.pricePerGBHour * config.monthlyHours;
    var totalCost := cpuCost + memoryCost;
    EcsCostBreakdown(cpuCost, memoryCost, totalCost)
  }

  function EcsCostToGeneric(b: EcsCostBreakdown): (g: GenericCostBreakdown)
    ensures Labels(g.items) == ["vCPU Cost", "Memory Cost"]
    ensures Costs(g.items) == [b.cpuCost, b.memoryCost]
    ensures g.total == b.totalCost
  {
    GenericCostBreakdown(
      [ CostItem("vCPU Cost", b.cpuCost),
        CostItem("Memory Cost", b.memoryCost) ],
      b.totalCost)
  }

  // ---------------------------------------------------------------------
  // Properties
  // ---------------------------------------------------------------------

  /** The projected breakdown's items add up to its total. */
  lemma EcsGenericIsConsistent(config: EcsConfig)
    ensures Consistent(EcsCostToGeneric(CalculateEcsCosts(config)))
  {
    var b := CalculateEcsCosts(config);
    var items := EcsCostToGeneric(b).items;
    assert SumCosts(items[1..]) == b.memoryCost;
  }

  /** Every component is linear in the running hours; zero hours cost nothing. */
  lemma CostsLinearInHours(config: EcsConfig, k: real)
    ensures var scaled := CalculateEcsCosts(config.(monthlyHours := k * config.monthlyHours));
            var base := CalculateEcsCosts(config);
            scaled.cpuCost == k * base.cpuCost && scaled.memoryCost == k * base.memoryCost
            && scaled.totalCost == k * base.totalCost
    ensures CalculateEcsCosts(config.(monthlyHours := 0.0)).totalCost == 0.0
  {
  }

  /** For the same non-negative quantities, arm never costs more than x86. */
  lemma ArmNeverDearer(config: EcsConfig)
    requires config.vCPU >= 0.0 && config.memoryGB >= 0.0 && config.monthlyHours >= 0.0
    ensures CalculateEcsCosts(config.(architecture := Arm)).cpuCost
         <= CalculateEcsCosts(config.(architecture := X86)).cpuCost
    ensures CalculateEcsCosts(config.(architecture := Arm)).memoryCost
         <= CalculateEcsCosts(config.(architecture := X86)).memoryCost
    ensures CalculateEcsCosts(config.(architecture := Arm)).totalCost
         <= CalculateEcsCosts(config.(architecture := X86)).totalCost
  {
    var arm, x86 := ArchitectureMetadata(Arm), ArchitectureMetadata(X86);
    assert config.vCPU * arm.pricePerVCPUHour <= config.vCPU * x86.pricePerVCPUHour;
    assert config.vCPU * arm.pricePerVCPUHour * config.monthlyHours <= config.vCPU * x86.pricePerVCPUHour * config.monthlyHours;
    assert config.memoryGB * arm.pricePerGBHour <= config.memoryGB * x86.pricePerGBHour;
    assert config.memoryGB * arm.pricePerGBHour * config.monthlyHours <= config.memoryGB * x86.pricePerGBHour * config.monthlyHours;
  }

  /** Worked example: arm, 1 vCPU, 2 GB, a full month of 730 hours. */
  lemma ArmExample()
    ensures CalculateEcsCosts(EcsConfig(Arm, 1.0, 2.0, 730.0)) == EcsCostBreakdown(23.6374, 5.19176, 28.82916)
  {
  }
}
