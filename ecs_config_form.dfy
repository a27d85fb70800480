/**
 * The ECS Fargate configuration form's validation, vCPU quick-select with
 * its memory clamp, and field updates (src/components/EcsConfigForm.tsx).
 * Input values arrive already parsed.
 */
module EcsConfigForm {
  import opened Wrappers
  import opened EcsTypes

  /** The numeric inputs of the form; the architecture is chosen from a list. */
  datatype EcsField = VCPU | MemoryGB | MonthlyHours

  const EcsFields: set<EcsField> := {VCPU, MemoryGB, MonthlyHours}

  /**
   * An error of the form. The memory message names the range and the vCPU
   * size it belongs to, so the error carries those three numbers.
   */
  datatype EcsError =
    | MemoryOutOfRange(minGB: real, maxGB: real, vCPU: real)
    | HoursOutOfRange

  function FieldValue(config: EcsConfig, field: EcsField): real
  {
    match field
    case VCPU => config.vCPU
    case MemoryGB => config.memoryGB
    case MonthlyHours => config.monthlyHours
  }

  /** Memory outside the range of the configured vCPU size, when that size has a range. */
  predicate MemoryOutsideRange(config: EcsConfig)
  {
    config.vCPU in EcsMemoryRanges
    && (config.memoryGB < EcsMemoryRanges[config.vCPU].minGB
        || config.memoryGB > EcsMemoryRanges[config.vCPU].maxGB)
  }

  /** The error a field carries, if any. */
  function FieldError(config: EcsConfig, field: EcsField): Option<EcsError>
  {
    match field
    case VCPU => None
    case MemoryGB =>
      if MemoryOutsideRange(config) then
        Some(MemoryOutOfRange(EcsMemoryRanges[config.vCPU].minGB, EcsMemoryRanges[config.vCPU].maxGB, config.vCPU))
      else None
    case MonthlyHours =>
      if config.monthlyHours < 1.0 || config.monthlyHours > 730.0 then Some(HoursOutOfRange) else None
  }

  /** The error record of a configuration. */
  function EcsErrors(config: EcsConfig): map<EcsField, EcsError>
  {
    map field | field in EcsFields && FieldError(config, field).Some? :: FieldError(config, field).value
  }

  /** validateForm: the memory check runs only for a vCPU size with a range, then the hours check. */
  method ValidateForm(config: EcsConfig) returns (errors: map<EcsField, EcsError>)
    ensures errors == EcsErrors(config)
  {
    errors := map[];
    if config.vCPU in EcsMemoryRanges {
      var memoryRange := EcsMemoryRanges[config.vCPU];
      if config.memoryGB < memoryRange.minGB || config.memoryGB > memoryRange.maxGB {
        errors := errors[MemoryGB := MemoryOutOfRange(memoryRange.minGB, memoryRange.maxGB, config.vCPU)];
      }
    }
    if config.monthlyHours < 1.0 || config.monthlyHours > 730.0 {
      errors := errors[MonthlyHours := HoursOutOfRange];
    }
  }

  /** A memory size lies in a range, both bounds included. */
  predicate InRange(memoryGB: real, memoryRange: EcsMemoryRange)
  {
    memoryRange.minGB <= memoryGB <= memoryRange.maxGB
  }

  /** The memory size pulled into a range: raised to its minimum, lowered to its maximum. */
  function ClampMemory(memoryGB: real, memoryRange: EcsMemoryRange): (r: real)
    ensures memoryRange.minGB <= memoryRange.maxGB ==> InRange(r, memoryRange)
    ensures InRange(memoryGB, memoryRange) ==> r == memoryGB
    ensures memoryRange.minGB <= memoryRange.maxGB && memoryGB < memoryRange.minGB ==> r == memoryRange.minGB
    ensures memoryRange.minGB <= memoryRange.maxGB && memoryGB > memoryRange.maxGB ==> r == memoryRange.maxGB
  {
    var lowered := if memoryGB < memoryRange.maxGB then memoryGB else memoryRange.maxGB;
    if memoryRange.minGB > lowered then memoryRange.minGB else lowered
  }

  /**
   * handleVcpuSelect: the vCPU size changes and memory is clamped into its
   * range. None stands for a size with no range, where the lookup fails and
   * no change is reported.
   */
  function HandleVcpuSelect(config: EcsConfig, vCPU: real): (r: Option<EcsConfig>)
    ensures r.None? <==> vCPU !in EcsMemoryRanges
    ensures r.Some? ==> r.value.vCPU == vCPU
    ensures r.Some? ==> r.value.memoryGB == ClampMemory(config.memoryGB, EcsMemoryRanges[vCPU])
    ensures r.Some? ==> r.value.architecture == config.architecture && r.value.monthlyHours == config.monthlyHours
  {
    if vCPU in EcsMemoryRanges then
      var memoryRange := EcsMemoryRanges[vCPU];
      Some(config.(vCPU := vCPU, memoryGB := ClampMemory(config.memoryGB, memoryRange)))
    else
      None
  }

  /** handleNumberChange: the named quantity takes the new value; memory is not clamped here. */
  function HandleNumberChange(config: EcsConfig, field: EcsField, value: real): (r: EcsConfig)
    ensures FieldValue(r, field) == value
    ensures forall other :: other != field ==> FieldValue(r, other) == FieldValue(config, other)
    ensures r.architecture == config.architecture
  {
    match field
    case VCPU => config.(vCPU := value)
    case MemoryGB => config.(memoryGB := value)
    case MonthlyHours => config.(monthlyHours := value)
  }

  /** handleArchitectureChange: only the architecture changes. */
  function HandleArchitectureChange(config: EcsConfig, architecture: EcsArchitecture): (r: EcsConfig)
    ensures r.architecture == architecture
    ensures forall field :: FieldValue(r, field) == FieldValue(config, field)
  {
    config.(architecture := architecture)
  }

  // ---------------------------------------------------------------------
  // Properties
  // ---------------------------------------------------------------------

  /** Memory is flagged exactly when the vCPU size has a range and memory lies outside it, bounds included as valid. */
  lemma {:induction false} MemoryFlaggedIff(config: EcsConfig)
    ensures MemoryGB in EcsErrors(config) <==>
              (config.vCPU in EcsMemoryRanges && !InRange(config.memoryGB, EcsMemoryRanges[config.vCPU]))
    ensures config.vCPU !in EcsMemoryRanges ==> MemoryGB !in EcsErrors(config)
  {
    assert MemoryGB in EcsFields;
  }

  /** Hours are flagged exactly when they fall outside 1..730, and the vCPU field is never flagged. */
  lemma {:induction false} HoursFlaggedIff(config: EcsConfig)
    ensures MonthlyHours in EcsErrors(config) <==> (config.monthlyHours < 1.0 || config.monthlyHours > 730.0)
    ensures VCPU !in EcsErrors(config)
  {
    assert MonthlyHours in EcsFields;
  }

  /** Clamping twice is clamping once. */
  lemma ClampIdempotent(memoryGB: real, memoryRange: EcsMemoryRange)
    requires memoryRange.minGB <= memoryRange.maxGB
    ensures ClampMemory(ClampMemory(memoryGB, memoryRange), memoryRange) == ClampMemory(memoryGB, memoryRange)
  {
  }

  /** After selecting a vCPU size that has a range, memory is never flagged. */
  lemma {:induction false} VcpuSelectAcceptsMemory(config: EcsConfig, vCPU: real)
    requires vCPU in EcsMemoryRanges
    ensures HandleVcpuSelect(config, vCPU).Some?
    ensures MemoryGB !in EcsErrors(HandleVcpuSelect(config, vCPU).value)
  {
    RangesWellFormed(vCPU);
    MemoryFlaggedIff(HandleVcpuSelect(config, vCPU).value);
  }

  /** Every quick-select tier has a range, so selecting it always succeeds and leaves memory valid. */
  lemma {:induction false} TierSelectAcceptsMemory(config: EcsConfig, i: int)
    requires 0 <= i < |EcsVcpuTiers|
    ensures HandleVcpuSelect(config, EcsVcpuTiers[i]).Some?
    ensures MemoryGB !in EcsErrors(HandleVcpuSelect(config, EcsVcpuTiers[i]).value)
  {
    EveryTierHasRange(i);
    VcpuSelectAcceptsMemory(config, EcsVcpuTiers[i]);
  }

  /** Selecting a size whose range already holds the memory keeps the memory as it was. */
  lemma VcpuSelectKeepsFittingMemory(config: EcsConfig, vCPU: real)
    requires vCPU in EcsMemoryRanges && InRange(config.memoryGB, EcsMemoryRanges[vCPU])
    ensures HandleVcpuSelect(config, vCPU) == Some(config.(vCPU := vCPU))
  {
  }
}
