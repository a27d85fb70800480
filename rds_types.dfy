/**
 * Aurora configuration shapes and the provisioned instance table
 * (src/types/rds.ts).
 */
module RdsTypes {

  datatype AuroraDeploymentType = ServerlessV2Type | ProvisionedType

  datatype AuroraInstanceType =
    | R6gLarge
    | R6gXlarge
    | R6g2xlarge
    | R6g4xlarge
    | R6g8xlarge
    | R6g12xlarge
    | R6g16xlarge

  datatype AuroraServerlessV2Config = AuroraServerlessV2Config(
    minACU: real,
    maxACU: real,
    storageGB: real,
    ioRequests: real,
    backupStorageGB: real)

  datatype AuroraProvisionedConfig = AuroraProvisionedConfig(
    instanceType: AuroraInstanceType,
    instanceCount: real,
    storageGB: real,
    ioRequests: real,
    backupStorageGB: real)

  /** The two deployment variants, each carrying its own configuration record. */
  datatype AuroraConfig =
    | ServerlessV2(serverless: AuroraServerlessV2Config)
    | Provisioned(provisioned: AuroraProvisionedConfig)
  {
    /** The `type` tag of the union. */
    function Type(): AuroraDeploymentType
    {
      if ServerlessV2? then ServerlessV2Type else ProvisionedType
    }
  }

  datatype AuroraCostBreakdown = AuroraCostBreakdown(
    computeCost: real,
    storageCost: real,
    ioCost: real,
    backupCost: real,
    totalCost: real)

  datatype AuroraInstanceMetadata = AuroraInstanceMetadata(
    name: string,
    vcpu: nat,
    memoryGB: nat,
    pricePerHour: real)

  /** The key under which an instance type appears in the table. */
  function InstanceTypeKey(t: AuroraInstanceType): string
  {
    match t
    case R6gLarge => "db.r6g.large"
    case R6gXlarge => "db.r6g.xlarge"
    case R6g2xlarge => "db.r6g.2xlarge"
    case R6g4xlarge => "db.r6g.4xlarge"
    case R6g8xlarge => "db.r6g.8xlarge"
    case R6g12xlarge => "db.r6g.12xlarge"
    case R6g16xlarge => "db.r6g.16xlarge"
  }

  /** AURORA_INSTANCE_METADATA: one entry for every instance type. */
  function InstanceMetadata(t: AuroraInstanceType): AuroraInstanceMetadata
  {
    match t
    case R6gLarge => AuroraInstanceMetadata("db.r6g.large", 2, 16, 0.24)
    case R6gXlarge => AuroraInstanceMetadata("db.r6g.xlarge", 4, 32, 0.48)
    case R6g2xlarge => AuroraInstanceMetadata("db.r6g.2xlarge", 8, 64, 0.96)
    case R6g4xlarge => AuroraInstanceMetadata("db.r6g.4xlarge", 16, 128, 1.92)
    case R6g8xlarge => AuroraInstanceMetadata("db.r6g.8xlarge", 32, 256, 3.84)
    case R6g12xlarge => AuroraInstanceMetadata("db.r6g.12xlarge", 48, 384, 5.76)
    case R6g16xlarge => AuroraInstanceMetadata("db.r6g.16xlarge", 64, 512, 7.68)
  }

  /** The instance types in declaration order. */
  const AllInstanceTypes: seq<AuroraInstanceType> :=
    [R6gLarge, R6gXlarge, R6g2xlarge, R6g4xlarge, R6g8xlarge, R6g12xlarge, R6g16xlarge]

  /** There are exactly seven instance types, each listed once. */
  lemma InstanceTypesEnumerated(t: AuroraInstanceType)
    ensures |AllInstanceTypes| == 7
    ensures t in AllInstanceTypes
    ensures forall i, j :: 0 <= i < j < |AllInstanceTypes| ==> AllInstanceTypes[i] != AllInstanceTypes[j]
  {
  }

  /** Every entry is priced at 0.12 per vCPU-hour and has 8 GB per vCPU. */
  lemma InstanceMetadataProportional(t: AuroraInstanceType)
    ensures InstanceMetadata(t).pricePerHour == 0.12 * InstanceMetadata(t).vcpu as real
    ensures InstanceMetadata(t).memoryGB == 8 * InstanceMetadata(t).vcpu
  {
  }

  /** Each entry's name is its own key. */
  lemma InstanceNameIsKey(t: AuroraInstanceType)
    ensures InstanceMetadata(t).name == InstanceTypeKey(t)
  {
  }

  /** The hourly price strictly increases in declaration order. */
  lemma InstancePricesIncrease(i: int, j: int)
    requires 0 <= i < j < |AllInstanceTypes|
    ensures InstanceMetadata(AllInstanceTypes[i]).pricePerHour < InstanceMetadata(AllInstanceTypes[j]).pricePerHour
  {
  }
}
