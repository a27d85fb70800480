/**
 * The S3 configuration form's validation and field updates
 * (src/components/S3ConfigForm.tsx). Input values arrive already parsed.
 */
module S3ConfigForm {
  import opened S3Calculator

  /** The numeric inputs of the form; the tier is chosen from a list. */
  datatype S3Field = StorageGB | PutRequests | GetRequests | DataTransferGB

  const S3Fields: set<S3Field> := {StorageGB, PutRequests, GetRequests, DataTransferGB}

  function FieldValue(config: S3StorageConfig, field: S3Field): real
  {
    match field
    case StorageGB => config.storageGB
    case PutRequests => config.putRequests
    case GetRequests => config.getRequests
    case DataTransferGB => config.dataTransferGB
  }

  function ErrorMessage(field: S3Field): string
  {
    match field
    case StorageGB => "Storage size cannot be negative"
    case PutRequests => "PUT requests cannot be negative"
    case GetRequests => "GET requests cannot be negative"
    case DataTransferGB => "Data transfer cannot be negative"
  }

  /** The error record of a configuration: a message under every negative quantity. */
  function S3Errors(config: S3StorageConfig): map<S3Field, string>
  {
    map field | field in S3Fields && FieldValue(config, field) < 0.0 :: ErrorMessage(field)
  }

  /** validateForm: the checks run one after another, each adding its key to a fresh record. */
  method ValidateForm(config: S3StorageConfig) returns (errors: map<S3Field, string>)
    ensures errors == S3Errors(config)
  {
    errors := map[];
    if config.storageGB < 0.0 {
      errors := errors[StorageGB := ErrorMessage(StorageGB)];
    }
    if config.putRequests < 0.0 {
      errors := errors[PutRequests := ErrorMessage(PutRequests)];
    }
    if config.getRequests < 0.0 {
      errors := errors[GetRequests := ErrorMessage(GetRequests)];
    }
    if config.dataTransferGB < 0.0 {
      errors := errors[DataTransferGB := ErrorMessage(DataTransferGB)];
    }
  }

  /** handleNumberChange: the named quantity takes the new value. */
  function HandleNumberChange(config: S3StorageConfig, field: S3Field, value: real): (r: S3StorageConfig)
    ensures FieldValue(r, field) == value
    ensures forall other :: other != field ==> FieldValue(r, other) == FieldValue(config, other)
    ensures r.tier == config.tier
  {
    match field
    case StorageGB => config.(storageGB := value)
    case PutRequests => config.(putRequests := value)
    case GetRequests => config.(getRequests := value)
    case DataTransferGB => config.(dataTransferGB := value)
  }

  /** handleTierChange: only the tier changes. */
  function HandleTierChange(config: S3StorageConfig, tier: S3StorageTier): (r: S3StorageConfig)
    ensures r.tier == tier
    ensures forall field :: FieldValue(r, field) == FieldValue(config, field)
  {
    config.(tier := tier)
  }

  // ---------------------------------------------------------------------
  // Properties
  // ---------------------------------------------------------------------

  /** Each quantity is flagged exactly when it is negative, with its own message. */
  lemma {:induction false} FieldFlaggedIffNegative(config: S3StorageConfig, field: S3Field)
    ensures field in S3Errors(config) <==> FieldValue(config, field) < 0.0
    ensures field in S3Errors(config) ==> S3Errors(config)[field] == ErrorMessage(field)
  {
    assert field in S3Fields;
  }

  /** The form is free of errors exactly when all four quantities are non-negative. */
  lemma NoErrorsIffNonNegative(config: S3StorageConfig)
    ensures S3Errors(config) == map[] <==>
              (config.storageGB >= 0.0 && config.putRequests >= 0.0 &&
               config.getRequests >= 0.0 && config.dataTransferGB >= 0.0)
  {
    if S3Errors(config) == map[] {
      FieldFlaggedIffNegative(config, StorageGB);
      FieldFlaggedIffNegative(config, PutRequests);
      FieldFlaggedIffNegative(config, GetRequests);
      FieldFlaggedIffNegative(config, DataTransferGB);
    }
  }

  /** A configuration the form accepts is priced at a non-negative cost in every component. */
  lemma AcceptedConfigCostsNonNegative(snapshot: PricingSnapshot, config: S3StorageConfig)
    requires S3Errors(config) == map[]
    ensures CalculateS3Costs(snapshot, config).storageCost >= 0.0
    ensures CalculateS3Costs(snapshot, config).putRequestsCost >= 0.0
    ensures CalculateS3Costs(snapshot, config).getRequestsCost >= 0.0
    ensures CalculateS3Costs(snapshot, config).dataTransferCost >= 0.0
    ensures CalculateS3Costs(snapshot, config).totalCost >= 0.0
  {
    NoErrorsIffNonNegative(config);
    S3CostsNonNegative(snapshot, config);
  }

  /** Editing one quantity leaves the verdict on every other quantity as it was. */
  lemma NumberChangeIsLocal(config: S3StorageConfig, field: S3Field, value: real, other: S3Field)
    requires other != field
    ensures other in S3Errors(HandleNumberChange(config, field, value)) <==> other in S3Errors(config)
    ensures field in S3Errors(HandleNumberChange(config, field, value)) <==> value < 0.0
  {
    var r := HandleNumberChange(config, field, value);
    FieldFlaggedIffNegative(config, other);
    FieldFlaggedIffNegative(r, other);
    FieldFlaggedIffNegative(r, field);
  }

  /** The tier never produces an error: changing it leaves the error record untouched. */
  lemma TierChangeKeepsErrors(config: S3StorageConfig, tier: S3StorageTier)
    ensures S3Errors(HandleTierChange(config, tier)) == S3Errors(config)
  {
  }
}
