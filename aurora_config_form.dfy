/**
 * The Aurora configuration form's validation, deployment switch and field
 * updates (src/components/AuroraConfigForm.tsx). Input values arrive
 * already parsed.
 */
module AuroraConfigForm {
  import opened Wrappers
  import opened RdsTypes
  import opened RdsCalculator

  /** Every input of the form, across both deployment variants. */
  datatype AuroraField =
    | MinACU
    | MaxACU
    | InstanceType
    | InstanceCount
    | StorageGB
    | IoRequests
    | BackupStorageGB

  const AuroraFields: set<AuroraField> :=
    {MinACU, MaxACU, InstanceType, InstanceCount, StorageGB, IoRequests, BackupStorageGB}

  /** The numeric value of a field, or None when the configuration's variant has no such number. */
  function NumberField(config: AuroraConfig, field: AuroraField): Option<real>
  {
    match config
    case ServerlessV2(s) =>
      (match field
       case MinACU => Some(s.minACU)
       case MaxACU => Some(s.maxACU)
       case StorageGB => Some(s.storageGB)
       case IoRequests => Some(s.ioRequests)
       case BackupStorageGB => Some(s.backupStorageGB)
       case _ => None)
    case Provisioned(p) =>
      (match field
       case InstanceCount => Some(p.instanceCount)
       case StorageGB => Some(p.storageGB)
       case IoRequests => Some(p.ioRequests)
       case BackupStorageGB => Some(p.backupStorageGB)
       case _ => None)
  }

  /** The rule each field breaks, if any; the rules depend on the deployment variant. */
  predicate Fails(config: AuroraConfig, field: AuroraField)
  {
    match config
    case ServerlessV2(s) =>
      (field == MinACU && s.minACU < 0.5)
      || (field == MaxACU && s.maxACU < s.minACU)
      || (field == StorageGB && s.storageGB < 0.0)
    case Provisioned(p) =>
      (field == InstanceCount && p.instanceCount < 1.0)
      || (field == StorageGB && p.storageGB < 0.0)
  }

  function ErrorMessage(field: AuroraField): string
  {
    match field
    case MinACU => "Min ACU must be at least 0.5"
    case MaxACU => "Max ACU must be greater than or equal to Min ACU"
    case InstanceCount => "Instance count must be at least 1"
    case StorageGB => "Storage cannot be negative"
    case _ => ""
  }

  /** The error record of a configuration: a message under every field that breaks its rule. */
  function AuroraErrors(config: AuroraConfig): map<AuroraField, string>
  {
    map field | field in AuroraFields && Fails(config, field) :: ErrorMessage(field)
  }

  /** validateForm: one block of checks per variant, each adding its key to a fresh record. */
  method ValidateForm(config: AuroraConfig) returns (errors: map<AuroraField, string>)
    ensures errors == AuroraErrors(config)
  {
    errors := map[];
    if config.ServerlessV2? {
      var s := config.serverless;
      if s.minACU < 0.5 {
        errors := errors[MinACU := ErrorMessage(MinACU)];
      }
      if s.maxACU < s.minACU {
        errors := errors[MaxACU := ErrorMessage(MaxACU)];
      }
      if s.storageGB < 0.0 {
        errors := errors[StorageGB := ErrorMessage(StorageGB)];
      }
    } else {
      var p := config.provisioned;
      if p.instanceCount < 1.0 {
        errors := errors[InstanceCount := ErrorMessage(InstanceCount)];
      }
      if p.storageGB < 0.0 {
        errors := errors[StorageGB := ErrorMessage(StorageGB)];
      }
    }
  }

  /**
   * handleTypeChange: switching the deployment type replaces the whole
   * configuration with that type's defaults, which the form accepts.
   */
  function HandleTypeChange(t: AuroraDeploymentType): (r: AuroraConfig)
    ensures r.Type() == t
    ensures AuroraErrors(r) == map[]
    ensures NumberField(r, StorageGB) == Some(100.0)
    ensures NumberField(r, IoRequests) == Some(1000000.0)
    ensures NumberField(r, BackupStorageGB) == Some(50.0)
    ensures t == ServerlessV2Type ==> NumberField(r, MinACU) == Some(0.5) && NumberField(r, MaxACU) == Some(2.0)
    ensures t == ProvisionedType ==>
              r.provisioned.instanceType == R6gLarge && NumberField(r, InstanceCount) == Some(1.0)
  {
    match t
    case ServerlessV2Type =>
      ServerlessV2(AuroraServerlessV2Config(0.5, 2.0, 100.0, 1000000.0, 50.0))
    case ProvisionedType =>
      Provisioned(AuroraProvisionedConfig(R6gLarge, 1.0, 100.0, 1000000.0, 50.0))
  }

  /**
   * handleServerlessChange: None when the configuration is provisioned
   * (nothing is reported); otherwise the named number takes the new value.
   */
  function HandleServerlessChange(config: AuroraConfig, field: AuroraField, value: real): (r: Option<AuroraConfig>)
    ensures r.None? <==> config.Provisioned?
    ensures r.Some? ==> r.value.ServerlessV2?
    ensures r.Some? && NumberField(config, field).Some? ==> NumberField(r.value, field) == Some(value)
    ensures r.Some? ==> forall other :: other != field ==> NumberField(r.value, other) == NumberField(config, other)
  {
    match config
    case Provisioned(_) => None
    case ServerlessV2(s) =>
      Some(ServerlessV2(
        match field
        case MinACU => s.(minACU := value)
        case MaxACU => s.(maxACU := value)
        case StorageGB => s.(storageGB := value)
        case IoRequests => s.(ioRequests := value)
        case BackupStorageGB => s.(backupStorageGB := value)
        case _ => s))
  }

  /** What the provisioned panel reports: a new instance type, or a new number for a field. */
  datatype ProvisionedChange =
    | SetInstanceType(instanceType: AuroraInstanceType)
    | SetNumber(field: AuroraField, value: real)

  /**
   * handleProvisionedChange: None when the configuration is serverless;
   * otherwise the instance type or the named number takes the new value.
   */
  function HandleProvisionedChange(config: AuroraConfig, change: ProvisionedChange): (r: Option<AuroraConfig>)
    ensures r.None? <==> config.ServerlessV2?
    ensures r.Some? ==> r.value.Provisioned?
    ensures r.Some? && change.SetInstanceType? ==>
              r.value.provisioned.instanceType == change.instanceType
              && forall other :: NumberField(r.value, other) == NumberField(config, other)
    ensures r.Some? && change.SetNumber? ==> r.value.provisioned.instanceType == config.provisioned.instanceType
    ensures r.Some? && change.SetNumber? && NumberField(config, change.field).Some? ==>
              NumberField(r.value, change.field) == Some(change.value)
    ensures r.Some? && change.SetNumber? ==>
              forall other :: other != change.field ==> NumberField(r.value, other) == NumberField(config, other)
  {
    match config
    case ServerlessV2(_) => None
    case Provisioned(p) =>
      Some(Provisioned(
        match change
        case SetInstanceType(t) => p.(instanceType := t)
        case SetNumber(field, value) =>
          match field
          case InstanceCount => p.(instanceCount := value)
          case StorageGB => p.(storageGB := value)
          case IoRequests => p.(ioRequests := value)
          case BackupStorageGB => p.(backupStorageGB := value)
          case _ => p))
  }

  // ---------------------------------------------------------------------
  // Properties
  // ---------------------------------------------------------------------

  /** The serverless rules: at least 0.5 ACU, a maximum no smaller than the minimum, non-negative storage. */
  lemma {:induction false} ServerlessErrors(s: AuroraServerlessV2Config)
    ensures MinACU in AuroraErrors(ServerlessV2(s)) <==> s.minACU < 0.5
    ensures MaxACU in AuroraErrors(ServerlessV2(s)) <==> s.maxACU < s.minACU
    ensures StorageGB in AuroraErrors(ServerlessV2(s)) <==> s.storageGB < 0.0
    ensures InstanceCount !in AuroraErrors(ServerlessV2(s))
  {
    assert MinACU in AuroraFields && MaxACU in AuroraFields && StorageGB in AuroraFields;
  }

  /** The provisioned rules: at least one instance, non-negative storage; no ACU checks. */
  lemma {:induction false} ProvisionedErrors(p: AuroraProvisionedConfig)
    ensures InstanceCount in AuroraErrors(Provisioned(p)) <==> p.instanceCount < 1.0
    ensures StorageGB in AuroraErrors(Provisioned(p)) <==> p.storageGB < 0.0
    ensures MinACU !in AuroraErrors(Provisioned(p)) && MaxACU !in AuroraErrors(Provisioned(p))
  {
    assert InstanceCount in AuroraFields && StorageGB in AuroraFields;
  }

  /** I/O requests, backup storage and the instance type are never flagged, in either variant. */
  lemma NeverFlagged(config: AuroraConfig)
    ensures IoRequests !in AuroraErrors(config)
    ensures BackupStorageGB !in AuroraErrors(config)
    ensures InstanceType !in AuroraErrors(config)
  {
  }

  /** A configuration the form accepts has a strictly positive compute charge. */
  lemma {:induction false} AcceptedConfigComputes(config: AuroraConfig)
    requires AuroraErrors(config) == map[]
    ensures CalculateAuroraCosts(config).computeCost > 0.0
  {
    match config
    case ServerlessV2(s) =>
      ServerlessErrors(s);
      assert MinACU !in AuroraErrors(config) && MaxACU !in AuroraErrors(config);
      assert s.minACU + s.maxACU >= 1.0;
    case Provisioned(p) =>
      ProvisionedErrors(p);
      assert InstanceCount !in AuroraErrors(config);
      var price := InstanceMetadata(p.instanceType).pricePerHour;
      assert price > 0.0;
      assert price * HOURS_PER_MONTH > 0.0;
  }
}
