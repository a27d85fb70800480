/**
 * The Lambda configuration form's validation, field updates and displayed
 * GB-seconds (src/components/LambdaConfigForm.tsx). Input values arrive
 * already parsed.
 */
module LambdaConfigForm {
  import opened LambdaTypes
  import opened LambdaCalculator

  /** The numeric inputs of the form; the architecture is chosen from a list. */
  datatype LambdaField = MemoryMB | MonthlyInvocations | AvgDurationMs

  const LambdaFields: set<LambdaField> := {MemoryMB, MonthlyInvocations, AvgDurationMs}

  function FieldValue(config: LambdaConfig, field: LambdaField): real
  {
    match field
    case MemoryMB => config.memoryMB
    case MonthlyInvocations => config.monthlyInvocations
    case AvgDurationMs => config.avgDurationMs
  }

  /** The rule each field breaks: memory outside 128..10240 MB, a negative count or duration. */
  predicate Fails(config: LambdaConfig, field: LambdaField)
  {
    match field
    case MemoryMB => config.memoryMB < 128.0 || config.memoryMB > 10240.0
    case MonthlyInvocations => config.monthlyInvocations < 0.0
    case AvgDurationMs => config.avgDurationMs < 0.0
  }

  function ErrorMessage(field: LambdaField): string
  {
    match field
    case MemoryMB => "Memory must be between 128 MB and 10,240 MB"
    case MonthlyInvocations => "Monthly invocations cannot be negative"
    case AvgDurationMs => "Duration cannot be negative"
  }

  /** The error record of a configuration: a message under every field that breaks its rule. */
  function LambdaErrors(config: LambdaConfig): map<LambdaField, string>
  {
    map field | field in LambdaFields && Fails(config, field) :: ErrorMessage(field)
  }

  /** validateForm: the checks run one after another, each adding its key to a fresh record. */
  method ValidateForm(config: LambdaConfig) returns (errors: map<LambdaField, string>)
    ensures errors == LambdaErrors(config)
  {
    errors := map[];
    if config.memoryMB < 128.0 || config.memoryMB > 10240.0 {
      errors := errors[MemoryMB := ErrorMessage(MemoryMB)];
    }
    if config.monthlyInvocations < 0.0 {
      errors := errors[MonthlyInvocations := ErrorMessage(MonthlyInvocations)];
    }
    if config.avgDurationMs < 0.0 {
      errors := errors[AvgDurationMs := ErrorMessage(AvgDurationMs)];
    }
  }

  /** handleNumberChange: the named quantity takes the new value. */
  function HandleNumberChange(config: LambdaConfig, field: LambdaField, value: real): (r: LambdaConfig)
    ensures FieldValue(r, field) == value
    ensures forall other :: other != field ==> FieldValue(r, other) == FieldValue(config, other)
    ensures r.architecture == config.architecture
  {
    match field
    case MemoryMB => config.(memoryMB := value)
    case MonthlyInvocations => config.(monthlyInvocations := value)
    case AvgDurationMs => config.(avgDurationMs := value)
  }

  /** handleArchitectureChange: only the architecture changes. */
  function HandleArchitectureChange(config: LambdaConfig, architecture: LambdaArchitecture): (r: LambdaConfig)
    ensures r.architecture == architecture
    ensures forall field :: FieldValue(r, field) == FieldValue(config, field)
  {
    config.(architecture := architecture)
  }

  /** handleMemoryTierSelect: only the memory size changes. */
  function HandleMemoryTierSelect(config: LambdaConfig, memoryMB: real): (r: LambdaConfig)
    ensures r.memoryMB == memoryMB
    ensures r.architecture == config.architecture
    ensures forall field :: field != MemoryMB ==> FieldValue(r, field) == FieldValue(config, field)
  {
    config.(memoryMB := memoryMB)
  }

  /** The GB-seconds figure shown under the duration input, before its rounding for display. */
  function CalculateGBSeconds(config: LambdaConfig): (gbSeconds: real)
    ensures gbSeconds == GbSeconds(config)
  {
    (config.memoryMB / 1024.0) * (config.avgDurationMs / 1000.0) * config.monthlyInvocations
  }

  // ---------------------------------------------------------------------
  // Properties
  // ---------------------------------------------------------------------

  /** Each field is flagged exactly when it breaks its rule, with its own message. */
  lemma {:induction false} FieldFlaggedIffFails(config: LambdaConfig, field: LambdaField)
    ensures field in LambdaErrors(config) <==> Fails(config, field)
    ensures field in LambdaErrors(config) ==> LambdaErrors(config)[field] == ErrorMessage(field)
  {
    assert field in LambdaFields;
  }

  /** Picking any quick-select memory tier never produces a memory error. */
  lemma {:induction false} TierSelectAcceptsMemory(config: LambdaConfig, i: int)
    requires 0 <= i < |LambdaMemoryTiers|
    ensures MemoryMB !in LambdaErrors(HandleMemoryTierSelect(config, LambdaMemoryTiers[i]))
  {
    MemoryTiersInRange(i);
    FieldFlaggedIffFails(HandleMemoryTierSelect(config, LambdaMemoryTiers[i]), MemoryMB);
  }

  /** The form accepts a configuration exactly when memory is in range and the counts are non-negative. */
  lemma NoErrorsIff(config: LambdaConfig)
    ensures LambdaErrors(config) == map[] <==>
              (128.0 <= config.memoryMB <= 10240.0 &&
               config.monthlyInvocations >= 0.0 && config.avgDurationMs >= 0.0)
  {
    if LambdaErrors(config) == map[] {
      FieldFlaggedIffFails(config, MemoryMB);
      FieldFlaggedIffFails(config, MonthlyInvocations);
      FieldFlaggedIffFails(config, AvgDurationMs);
    }
  }

  /** A configuration the form accepts has a non-negative GB-seconds figure and cost. */
  lemma {:induction false} AcceptedConfigCostsNonNegative(config: LambdaConfig)
    requires LambdaErrors(config) == map[]
    ensures CalculateGBSeconds(config) >= 0.0
    ensures CalculateLambdaCosts(config).totalCost >= 0.0
  {
    NoErrorsIff(config);
    var gbs := GbSeconds(config);
    assert (config.memoryMB / 1024.0) * (config.avgDurationMs / 1000.0) >= 0.0;
    assert gbs >= 0.0;
    assert ArchitectureMetadata(config.architecture).pricePerGBSecond > 0.0;
  }
}
