/** ECS Fargate configuration shapes, vCPU tiers, memory ranges and prices (src/types/ecs.ts). */
module EcsTypes {

  datatype EcsArchitecture = X86 | Arm

  datatype EcsConfig = EcsConfig(
    architecture: EcsArchitecture,
    vCPU: real,
    memoryGB: real,
    monthlyHours: real)

  datatype EcsCostBreakdown = EcsCostBreakdown(
    cpuCost: real,
    memoryCost: real,
    totalCost: real)

  datatype EcsMemoryRange = EcsMemoryRange(minGB: real, maxGB: real)

  datatype EcsArchitectureMetadata = EcsArchitectureMetadata(name: string, pricePerVCPUHour: real, pricePerGBHour: real)

  /** The vCPU sizes offered by the quick-select list. */
  const EcsVcpuTiers: seq<real> := [0.25, 0.5, 1.0, 2.0, 4.0, 8.0]

  /** The memory a task of a given vCPU size may have, in GB (16 vCPU has a range but no tier). */
  const EcsMemoryRanges: map<real, EcsMemoryRange> := map[
    0.25 := EcsMemoryRange(0.5, 2.0),
    0.5 := EcsMemoryRange(1.0, 4.0),
    1.0 := EcsMemoryRange(2.0, 8.0),
    2.0 := EcsMemoryRange(4.0, 16.0),
    4.0 := EcsMemoryRange(8.0, 30.0),
    8.0 := EcsMemoryRange(16.0, 60.0),
    16.0 := EcsMemoryRange(32.0, 120.0)
  ]

  /** ECS_ARCHITECTURE_METADATA: an entry for both architectures. */
  function ArchitectureMetadata(arch: EcsArchitecture): EcsArchitectureMetadata
  {
    match arch
    case X86 => EcsArchitectureMetadata("x86_64", 0.04048, 0.004445)
    case Arm => EcsArchitectureMetadata("ARM Graviton2", 0.03238, 0.003556)
  }

  /** Every offered vCPU tier has a memory range. */
  lemma EveryTierHasRange(i: int)
    requires 0 <= i < |EcsVcpuTiers|
    ensures EcsVcpuTiers[i] in EcsMemoryRanges
  {
  }

  /** Every range is ordered, and its lower end is 2 GB per vCPU. */
  lemma RangesWellFormed(vcpu: real)
    requires vcpu in EcsMemoryRanges
    ensures EcsMemoryRanges[vcpu].minGB <= EcsMemoryRanges[vcpu].maxGB
    ensures EcsMemoryRanges[vcpu].minGB == 2.0 * vcpu
  {
  }

  /** The vCPU tiers strictly increase. */
  lemma VcpuTiersIncrease(i: int, j: int)
    requires 0 <= i < j < |EcsVcpuTiers|
    ensures EcsVcpuTiers[i] < EcsVcpuTiers[j]
  {
  }

  /** arm is cheaper than x86 both per vCPU-hour and per GB-hour; all prices are positive. */
  lemma ArmCheaperPerHour()
    ensures 0.0 < ArchitectureMetadata(Arm).pricePerVCPUHour < ArchitectureMetadata(X86).pricePerVCPUHour
    ensures 0.0 < ArchitectureMetadata(Arm).pricePerGBHour < ArchitectureMetadata(X86).pricePerGBHour
  {
  }
}
