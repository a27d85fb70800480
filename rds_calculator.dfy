/** The Aurora cost calculator (src/utils/rdsCalculator.ts). */
module RdsCalculator {
  import opened CostTypes
  import opened RdsTypes

  /** The fixed hours-per-month approximation. */
  const HOURS_PER_MONTH: real := 730.0

  function CalculateServerlessV2Costs(config: AuroraServerlessV2Config): (b: AuroraCostBreakdown)
    ensures b.totalCost == b.computeCost + b.storageCost + b.ioCost + b.backupCost
    ensures b.storageCost == config.storageGB * 0.10
    ensures b.ioCost == (config.ioRequests / 1000000.0) * 0.20
    ensures b.backupCost == config.backupStorageGB * 0.021
  {
    var acuPricePerHour := 0.12;
    var avgACU := (config.minACU + config.maxACU) / 2.0;
    var computeCost := avgACU * acuPricePerHour * HOURS_PER_MONTH;

    var storagePricePerGB := 0.10;
    var storageCost := config.storageGB * storagePricePerGB;

    var ioPricePerMillion := 0.20;
    var ioCost := (config.ioRequests / 1000000.0) * ioPricePerMillion;

    var backupPricePerGB := 0.021;
    var backupCost := config.backupStorageGB * backupPricePerGB;

    var totalCost := computeCost + storageCost + ioCost + backupCost;
    AuroraCostBreakdown(computeCost, storageCost, ioCost, backupCost, totalCost)
  }

  function CalculateProvisionedCosts(config: AuroraProvisionedConfig): (b: AuroraCostBreakdown)
    ensures b.totalCost == b.computeCost + b.storageCost + b.ioCost + b.backupCost
    ensures b.storageCost == config.storageGB * 0.10
    ensures b.ioCost == (config.ioRequests / 1000000.0) * 0.20
    ensures b.backupCost == config.backupStorageGB * 0.021
  {
    var instanceMetadata := InstanceMetadata(config.instanceType);
    var computeCost := instanceMetadata.pricePerHour * HOURS_PER_MONTH * config.instanceCount;

    var storagePricePerGB := 0.10;
    var storageCost := config.storageGB * storagePricePerGB;

    var ioPricePerMillion := 0.20;
    var ioCost := (config.ioRequests / 1000000.0) * ioPricePerMillion;

    var backupPricePerGB := 0.021;
    var backupCost := config.backupStorageGB * backupPricePerGB;

    var totalCost := computeCost + storageCost + ioCost + backupCost;
    AuroraCostBreakdown(computeCost, storageCost, ioCost, backupCost, totalCost)
  }

  /** Dispatches on the deployment tag. */
  function CalculateAuroraCosts(config: AuroraConfig): (b: AuroraCostBreakdown)
    ensures config.Type() == ServerlessV2Type ==> b == CalculateServerlessV2Costs(config.serverless)
    ensures config.Type() == ProvisionedType ==> b == CalculateProvisionedCosts(config.provisioned)
    ensures b.totalCost == b.computeCost + b.storageCost + b.ioCost + b.backupCost
  {
    match config
    case ServerlessV2(c) => CalculateServerlessV2Costs(c)
    case Provisioned(c) => CalculateProvisionedCosts(c)
  }

  function AuroraCostToGeneric(b: AuroraCostBreakdown): (g: GenericCostBreakdown)
    ensures Labels(g.items) == ["Compute", "Storage", "I/O Requests", "Backup Storage"]
    ensures Costs(g.items) == [b.computeCost, b.storageCost, b.ioCost, b.backupCost]
    ensures g.total == b.totalCost
  {
    GenericCostBreakdown(
      [ CostItem("Compute", b.computeCost),
        CostItem("Storage", b.storageCost),
        CostItem("I/O Requests", b.ioCost),
        CostItem("Backup Storage", b.backupCost) ],
      b.totalCost)
  }

  // ---------------------------------------------------------------------
  // Properties
  // ---------------------------------------------------------------------

  /** The projected breakdown's items add up to its total, for both variants. */
  lemma AuroraGenericIsConsistent(config: AuroraConfig)
    ensures Consistent(AuroraCostToGeneric(CalculateAuroraCosts(config)))
  {
    var b := CalculateAuroraCosts(config);
    var items := AuroraCostToGeneric(b).items;
    assert SumCosts(items[3..]) == b.backupCost;
    assert SumCosts(items[2..]) == b.ioCost + b.backupCost;
    assert SumCosts(items[1..]) == b.storageCost + b.ioCost + b.backupCost;
  }

  /** Serverless compute depends on the ACU bounds only through their sum. */
  lemma ServerlessSymmetricInAcu(config: AuroraServerlessV2Config)
    ensures CalculateServerlessV2Costs(config.(minACU := config.maxACU, maxACU := config.minACU))
         == CalculateServerlessV2Costs(config)
    ensures CalculateServerlessV2Costs(config).computeCost == (config.minACU + config.maxACU) * 43.8
  {
  }

  /** Provisioned compute is the instance's hourly price for 730 hours per instance. */
  lemma ProvisionedComputeLinear(config: AuroraProvisionedConfig, k: real)
    ensures CalculateProvisionedCosts(config).computeCost
         == InstanceMetadata(config.instanceType).pricePerHour * 730.0 * config.instanceCount
    ensures CalculateProvisionedCosts(config.(instanceCount := k * config.instanceCount)).computeCost
         == k * CalculateProvisionedCosts(config).computeCost
  {
  }

  /**
   * Storage, I/O and backup are priced the same in both variants, so only
   * the compute cost depends on the deployment type.
   */
  lemma SharedComponentsAgree(s: AuroraServerlessV2Config, p: AuroraProvisionedConfig)
    requires s.storageGB == p.storageGB && s.ioRequests == p.ioRequests && s.backupStorageGB == p.backupStorageGB
    ensures CalculateServerlessV2Costs(s).storageCost == CalculateProvisionedCosts(p).storageCost
    ensures CalculateServerlessV2Costs(s).ioCost == CalculateProvisionedCosts(p).ioCost
    ensures CalculateServerlessV2Costs(s).backupCost == CalculateProvisionedCosts(p).backupCost
    ensures CalculateServerlessV2Costs(s).totalCost - CalculateServerlessV2Costs(s).computeCost
         == CalculateProvisionedCosts(p).totalCost - CalculateProvisionedCosts(p).computeCost
  {
  }

  /** Every quantity of the configuration is non-negative. */
  predicate NonNegativeInputs(config: AuroraConfig)
  {
    match config
    case ServerlessV2(c) =>
      c.minACU >= 0.0 && c.maxACU >= 0.0 && c.storageGB >= 0.0 && c.ioRequests >= 0.0 && c.backupStorageGB >= 0.0
    case Provisioned(c) =>
      c.instanceCount >= 0.0 && c.storageGB >= 0.0 && c.ioRequests >= 0.0 && c.backupStorageGB >= 0.0
  }

  /** Non-negative inputs give non-negative components and total. */
  lemma AuroraCostsNonNegative(config: AuroraConfig)
    requires NonNegativeInputs(config)
    ensures var b := CalculateAuroraCosts(config);
            b.computeCost >= 0.0 && b.storageCost >= 0.0 && b.ioCost >= 0.0 && b.backupCost >= 0.0
            && b.totalCost >= 0.0
  {
  }

  /** Worked example: Serverless v2 with 0.5 to 2 ACU, 100 GB, one million I/Os, 50 GB of backup. */
  lemma ServerlessExample()
    ensures CalculateAuroraCosts(ServerlessV2(AuroraServerlessV2Config(0.5, 2.0, 100.0, 1000000.0, 50.0)))
         == AuroraCostBreakdown(109.5, 10.0, 0.2, 1.05, 120.75)
  {
  }

  /** Worked example: one db.r6g.large with the same storage, I/O and backup. */
  lemma ProvisionedExample()
    ensures CalculateAuroraCosts(Provisioned(AuroraProvisionedConfig(R6gLarge, 1.0, 100.0, 1000000.0, 50.0)))
         == AuroraCostBreakdown(175.2, 10.0, 0.2, 1.05, 186.45)
  {
  }
}
