/** Lambda configuration shapes, memory quick-select tiers and prices (src/types/lambda.ts). */
module LambdaTypes {

  datatype LambdaArchitecture = X86 | Arm

  datatype LambdaConfig = LambdaConfig(
    architecture: LambdaArchitecture,
    memoryMB: real,
    monthlyInvocations: real,
    avgDurationMs: real)

  datatype LambdaCostBreakdown = LambdaCostBreakdown(
    requestCost: real,
    computeCost: real,
    totalCost: real)

  datatype LambdaArchitectureMetadata = LambdaArchitectureMetadata(name: string, pricePerGBSecond: real)

  /** The memory sizes offered by the quick-select list, in MB. */
  const LambdaMemoryTiers: seq<real> := [128.0, 256.0, 512.0, 1024.0, 2048.0, 3008.0, 5120.0, 10240.0]

  /** LAMBDA_ARCHITECTURE_METADATA: an entry for both architectures. */
  function ArchitectureMetadata(arch: LambdaArchitecture): LambdaArchitectureMetadata
  {
    match arch
    case X86 => LambdaArchitectureMetadata("x86_64", 0.0000166667)
    case Arm => LambdaArchitectureMetadata("ARM Graviton2", 0.0000133334)
  }

  /** Every tier lies within Lambda's 128 MB to 10,240 MB range, which the list spans exactly. */
  lemma MemoryTiersInRange(i: int)
    requires 0 <= i < |LambdaMemoryTiers|
    ensures 128.0 <= LambdaMemoryTiers[i] <= 10240.0
    ensures LambdaMemoryTiers[0] == 128.0 && LambdaMemoryTiers[|LambdaMemoryTiers| - 1] == 10240.0
  {
  }

  /** The tiers strictly increase. */
  lemma MemoryTiersIncrease(i: int, j: int)
    requires 0 <= i < j < |LambdaMemoryTiers|
    ensures LambdaMemoryTiers[i] < LambdaMemoryTiers[j]
  {
  }

  /** arm is billed less per GB-second than x86; both prices are positive. */
  lemma ArmCheaperPerGBSecond()
    ensures 0.0 < ArchitectureMetadata(Arm).pricePerGBSecond < ArchitectureMetadata(X86).pricePerGBSecond
  {
  }
}
