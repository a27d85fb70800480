# AWS cost comparison calculator — a Dafny model

This project models the core of a browser-based calculator that compares two
configurations of one AWS service side by side. Four services are covered:

- S3 storage;
- Aurora PostgreSQL, as Serverless v2 or as provisioned instances;
- Lambda;
- ECS on Fargate.

For each service the model covers:

- the cost calculator, which turns a configuration into a cost breakdown;
- the projection of that breakdown into a generic list of labelled items;
- the constant price tables the calculator uses;
- the configuration form, meaning its validation rules and field updates.

Three pieces are shared by all services:

- the savings summary of the comparison view, which gives the savings, the savings percentage and the cheaper option;
- the rows of the comparison chart;
- the category icon, the colour and the bar width of a cost breakdown list.

Each source file has one module:

- `S3Calculator`, `RdsTypes`, `RdsCalculator`, `LambdaTypes`, `LambdaCalculator`, `EcsTypes` and `EcsCalculator` model the calculators and their tables.
- `ComparisonLayout`, `ComparisonChart` and `CostBreakdownView` model the shared views.
- `S3ConfigForm`, `AuroraConfigForm`, `LambdaConfigForm` and `EcsConfigForm` model the forms.
- `Strings` holds `String.prototype.includes` and ASCII `toLowerCase`. `CostTypes` holds the generic breakdown. `Wrappers` holds `Option`.

Modelling choices:

- Prices and quantities are exact `real`s.
- The S3 calculator reads a pricing snapshot, which the source imports as a JSON file at build time. Here the snapshot is a parameter: a sequence of entries, each with an optional usage type, an optional operation and a price.
- The generic item's `label` is the field `name`, because `label` is a Dafny keyword.
- Each form's `validateForm` is a method. It fills a local error record with successive checks, and it is proved equal to a declarative error map (`S3Errors`, `AuroraErrors`, `LambdaErrors`, `EcsErrors`). The lemmas about that map state when each field is flagged.
- The change handlers are functions from the old configuration to the new one.
- The chart rows are built by a method that maps the categories to rows and then appends the Total row.

## Model

| member | source | states |
|---|---|---|
| S3Calculator.TierStorageClasses | src/utils/s3Calculator.ts:5-12 | every tier has exactly two storage-class aliases, tried in order |
| S3Calculator.StandardAliasesOrder | src/utils/s3Calculator.ts:5-12 | Standard tries "S3-Standard" before "S3-Storage", and Glacier Flexible Retrieval tries "S3-Glacier-Flexible" before "S3-Glacier" |
| S3Calculator.FindPricingItemFirstMatch | src/utils/s3Calculator.ts:14-22 | `FindPricingItem` gives the price of the first entry whose usage type contains the search text and whose operation matches when one is given; 0 when no entry matches |
| S3Calculator.NoUsageTypeNeverMatches | src/utils/s3Calculator.ts:16 | an entry without a usage type never matches |
| S3Calculator.FirstMatchNotFirstPositive | src/utils/s3Calculator.ts:14-22 | the lookup returns the first match even when its price is 0 and a later entry is positive |
| S3Calculator.FirstPositivePrice | src/utils/s3Calculator.ts:27-30 | a price that the loop over the aliases returns is strictly positive |
| S3Calculator.FirstPositivePriceSpec | src/utils/s3Calculator.ts:27-30 | in `FirstPositivePrice` the aliases are tried in order and the first strictly positive lookup wins; none exists only when every lookup is at most 0 |
| S3Calculator.StoragePricePerGB | src/utils/s3Calculator.ts:24-48 | the storage price is always strictly positive |
| S3Calculator.StoragePriceSource | src/utils/s3Calculator.ts:24-48 | the storage price is the tier's fixed constant when no alias gives a positive price, and otherwise the price of the first alias that does |
| S3Calculator.EmptySnapshotUsesFallback | src/utils/s3Calculator.ts:24-48 | with an empty snapshot every tier uses its fixed constant |
| S3Calculator.FallbackStoragePrices | src/utils/s3Calculator.ts:32-44 | the fixed storage prices of `FallbackStoragePrice` lie between 0.00099 (Glacier Deep Archive) and 0.023 (Standard) |
| S3Calculator.PutPriceClasses | src/utils/s3Calculator.ts:50-63 | `PutRequestPrice`: PUT costs 0.005 per 1000 for the non-Glacier tiers and 0.02 per 1000, four times as much, for the three Glacier tiers |
| S3Calculator.GlacierInstantGetIsHighest | src/utils/s3Calculator.ts:65-81 | in `GetRequestPrice`, Glacier Instant Retrieval's GET price of 0.01 per 1000 is strictly above every other tier's |
| S3Calculator.TransferPricePositiveIff | src/utils/s3Calculator.ts:83-89 | the transfer unit price `DataTransferPrice` is positive exactly when the volume is, and never above 0.09 |
| S3Calculator.TransferPriceNonIncreasing | src/utils/s3Calculator.ts:83-89 | for positive volumes the unit price never rises with the volume |
| S3Calculator.TransferCostNotMonotone | src/utils/s3Calculator.ts:83-101 | the whole volume is billed at one bracket rate: 10,240 GB costs 921.6 and 10,241 GB costs 870.485 |
| S3Calculator.CalculateS3Costs | src/utils/s3Calculator.ts:91-112 | storage is the volume times the per-GB storage price, PUT and GET are the counts times their per-request prices, transfer is the volume times the bracket rate, and the total is the sum of the four |
| S3Calculator.S3CostsNonNegative | src/utils/s3Calculator.ts:91-112 | non-negative quantities give non-negative components and total, for any snapshot |
| S3Calculator.StandardExample | src/utils/s3Calculator.ts:91-112 | Standard, 100 GB, 10,000 PUT, 100,000 GET and 50 GB transfer with an empty snapshot cost 2.30 + 0.05 + 0.04 + 4.50 = 6.89 |
| S3Calculator.S3CostToGeneric | src/utils/s3Calculator.ts:114-124 | the items are Storage, PUT Requests, GET Requests and Data Transfer in that order, with the costs unchanged and the same total |
| S3Calculator.S3GenericIsConsistent | src/utils/s3Calculator.ts:91-124 | the generic items of a calculated breakdown add up to its total |
| RdsTypes.InstanceTypesEnumerated | src/types/rds.ts:3-10 | there are exactly seven distinct instance types, and the list holds every one |
| RdsTypes.InstanceMetadataProportional | src/types/rds.ts:47-90 | in the `InstanceMetadata` table every instance costs 0.12 per vCPU-hour and has 8 GB of memory per vCPU |
| RdsTypes.InstanceNameIsKey | src/types/rds.ts:48-89 | each `InstanceMetadata` entry's name is its key |
| RdsTypes.InstancePricesIncrease | src/types/rds.ts:47-90 | hourly prices strictly increase in declaration order |
| RdsCalculator.CalculateServerlessV2Costs | src/utils/rdsCalculator.ts:12-36 | storage costs 0.10 per GB, I/O 0.20 per million requests and backup 0.021 per GB, and the total is compute + storage + I/O + backup |
| RdsCalculator.ServerlessSymmetricInAcu | src/utils/rdsCalculator.ts:13-16 | compute is (minACU + maxACU) × 43.8, unchanged when the two bounds are swapped |
| RdsCalculator.CalculateProvisionedCosts | src/utils/rdsCalculator.ts:38-60 | storage costs 0.10 per GB, I/O 0.20 per million requests and backup 0.021 per GB, and the total is compute + storage + I/O + backup |
| RdsCalculator.ProvisionedComputeLinear | src/utils/rdsCalculator.ts:39-40 | compute is the hourly price × 730 × the instance count, and scales linearly with the count |
| RdsCalculator.SharedComponentsAgree | src/utils/rdsCalculator.ts:18-49 | storage, I/O and backup are computed identically in both variants, so only compute depends on the variant |
| RdsCalculator.CalculateAuroraCosts | src/utils/rdsCalculator.ts:62-68 | the breakdown is chosen by the deployment tag alone, and its total is the sum of its components |
| RdsCalculator.AuroraCostsNonNegative | src/utils/rdsCalculator.ts:12-60 | non-negative inputs give non-negative components and total in both variants |
| RdsCalculator.ServerlessExample | src/utils/rdsCalculator.ts:12-36 | 0.5–2 ACU, 100 GB, 1e6 I/O and 50 GB of backup cost 109.5 + 10 + 0.2 + 1.05 = 120.75 |
| RdsCalculator.ProvisionedExample | src/utils/rdsCalculator.ts:38-60 | one db.r6g.large with the same shared fields costs 175.2 of compute and 186.45 in total |
| RdsCalculator.AuroraCostToGeneric | src/utils/rdsCalculator.ts:70-80 | the items are Compute, Storage, I/O Requests and Backup Storage in that order, unchanged, with the same total |
| RdsCalculator.AuroraGenericIsConsistent | src/utils/rdsCalculator.ts:62-80 | the generic items of a calculated breakdown add up to its total |
| LambdaTypes.MemoryTiersInRange | src/types/lambda.ts:21-30 | every memory tier of `LambdaMemoryTiers` lies in 128..10240 MB; the first is 128 and the last is 10240 |
| LambdaTypes.MemoryTiersIncrease | src/types/lambda.ts:21-30 | the memory tiers strictly increase |
| LambdaTypes.ArmCheaperPerGBSecond | src/types/lambda.ts:38-49 | in `ArchitectureMetadata`, arm's price per GB-second is positive and below x86's |
| LambdaCalculator.CalculateLambdaCosts | src/utils/lambdaCalculator.ts:5-22 | the total is request + compute cost; requests cost 0.20 per million invocations; compute is `GbSeconds` (memory in GB × duration in seconds × invocations) times the architecture's price |
| LambdaCalculator.ZeroInvocationsCostNothing | src/utils/lambdaCalculator.ts:8-15 | zero invocations cost nothing |
| LambdaCalculator.ArmNeverDearer | src/utils/lambdaCalculator.ts:10-15 | for the same non-negative configuration, arm never costs more than x86 |
| LambdaCalculator.X86Example | src/utils/lambdaCalculator.ts:7-22 | x86, 1024 MB, 1e6 invocations of 200 ms is 200,000 GB-seconds, with 3.33334 of compute and 3.53334 in total |
| LambdaCalculator.LambdaCostToGeneric | src/utils/lambdaCalculator.ts:24-32 | the items are Lambda Requests then Compute Duration (GB-seconds), unchanged, with the same total |
| LambdaCalculator.LambdaGenericIsConsistent | src/utils/lambdaCalculator.ts:7-32 | the generic items of a calculated breakdown add up to its total |
| EcsTypes.EveryTierHasRange | src/types/ecs.ts:21-43 | every vCPU tier of `EcsVcpuTiers` has a memory range in `EcsMemoryRanges` |
| EcsTypes.RangesWellFormed | src/types/ecs.ts:35-43 | every range of `EcsMemoryRanges` is ordered, and its minimum is 2 GB per vCPU |
| EcsTypes.VcpuTiersIncrease | src/types/ecs.ts:21-28 | the vCPU tiers strictly increase |
| EcsTypes.ArmCheaperPerHour | src/types/ecs.ts:52-65 | in `ArchitectureMetadata`, arm is cheaper than x86 both per vCPU-hour and per GB-hour, and all four prices are positive |
| EcsCalculator.CalculateEcsCosts | src/utils/ecsCalculator.ts:5-17 | CPU cost is vCPU × the architecture's vCPU-hour price × hours, memory cost is GB × its GB-hour price × hours, and the total is their sum |
| EcsCalculator.CostsLinearInHours | src/utils/ecsCalculator.ts:8-10 | each component scales linearly with the monthly hours, and zero hours cost nothing |
| EcsCalculator.ArmNeverDearer | src/utils/ecsCalculator.ts:6-10 | for the same non-negative configuration, arm never costs more than x86 in either component or in total |
| EcsCalculator.ArmExample | src/utils/ecsCalculator.ts:5-17 | arm, 1 vCPU, 2 GB and 730 h cost 23.6374 + 5.19176 = 28.82916 |
| EcsCalculator.EcsCostToGeneric | src/utils/ecsCalculator.ts:19-27 | the items are vCPU Cost then Memory Cost, unchanged, with the same total |
| EcsCalculator.EcsGenericIsConsistent | src/utils/ecsCalculator.ts:5-27 | the generic items of a calculated breakdown add up to its total |
| ComparisonLayout.Summarize | src/components/ComparisonLayout.tsx:18-28 | the savings are the non-negative difference of the totals; the first option is cheaper iff its total is lower, the second iff higher, and neither iff the totals are equal; the percentage is 0 when both totals are 0, and otherwise times the larger total it is a hundred times the savings |
| ComparisonLayout.SummarizeSymmetric | src/components/ComparisonLayout.tsx:24-28 | swapping the configurations swaps the cheaper option and keeps the savings and the percentage |
| ComparisonLayout.BothZeroNoPercentage | src/components/ComparisonLayout.tsx:25-27 | two zero totals give a 0 percentage |
| ComparisonLayout.PercentageBounded | src/components/ComparisonLayout.tsx:25-27 | for non-negative totals, not both 0, the divisor is positive and the percentage lies in 0..100; it is 100 when exactly one total is 0 |
| ComparisonLayout.BannerIffTotalsDiffer | src/components/ComparisonLayout.tsx:84 | the savings banner is shown exactly when the totals differ |
| ComparisonChart.DedupFrom | src/components/ComparisonChart.tsx:17-20 | deduplication keeps the labels not yet seen, each once |
| ComparisonChart.CategoriesOrder | src/components/ComparisonChart.tsx:17-20 | the categories are the first breakdown's distinct labels in first-occurrence order, then the second's labels not seen yet, without duplicates |
| ComparisonChart.DedupFirstOccurrenceOrder | src/components/ComparisonChart.tsx:17-20 | deduplicated labels come out ordered by the position of their first occurrence |
| ComparisonChart.DedupAppend | src/components/ComparisonChart.tsx:17-20 | deduplicating a concatenation deduplicates the first part, then the second part against everything in the first |
| ComparisonChart.DistinctCount | src/components/ComparisonChart.tsx:17-20 | a sequence without duplicates has as many elements as its set |
| ComparisonChart.DedupAllSeen | src/components/ComparisonChart.tsx:17-20 | labels that were all seen already add no category |
| ComparisonChart.DedupFresh | src/components/ComparisonChart.tsx:17-20 | fresh, distinct labels are kept as they are |
| ComparisonChart.SameLabelsKeepOrder | src/components/ComparisonChart.tsx:17-22 | two breakdowns with the same distinct labels give exactly those labels as categories |
| ComparisonChart.CostOf | src/components/ComparisonChart.tsx:23-29 | a row's value is the cost of the first item with that label, or 0 when the label is absent |
| ComparisonChart.ChartData | src/components/ComparisonChart.tsx:17-37 | one row per category, in order, carrying each breakdown's cost for it, then one final Total row with the two totals; the row count is the number of distinct labels of both breakdowns plus one |
| ComparisonChart.CategoryCount | src/components/ComparisonChart.tsx:17-20 | there are as many categories as distinct labels across both breakdowns |
| CostBreakdownView.ClassifyBy | src/components/CostBreakdown.tsx:8-16 | the category is one of the rules' categories or the default |
| CostBreakdownView.ClassifyByFirstFiring | src/components/CostBreakdown.tsx:8-16 | the category is that of the first rule one of whose keywords occurs in the label, and the default when no rule's keyword occurs |
| CostBreakdownView.IconAndColorFollowClassification | src/components/CostBreakdown.tsx:8-26 | the icon and the colour are both picked by the same priority (storage, compute, request or i/o, transfer or data, backup), so they always agree |
| CostBreakdownView.CategoryIconsAndColorsDistinct | src/components/CostBreakdown.tsx:8-26 | `CategoryIcon` and `CategoryColor` give every category its own icon and its own colour |
| CostBreakdownView.ClassifyUnfolded | src/components/CostBreakdown.tsx:9-15 | the classification checks the lowercased label against each keyword group in priority order |
| CostBreakdownView.BackupStorageIsStorage | src/components/CostBreakdown.tsx:10-14 | "Backup Storage" is shown as storage, never as backup |
| CostBreakdownView.BackupOnlyWithoutEarlierKeywords | src/components/CostBreakdown.tsx:10-24 | a label is classed as backup only if it contains none of the earlier keywords |
| CostBreakdownView.ClassificationIgnoresCase | src/components/CostBreakdown.tsx:9-19 | upper-casing a label changes neither its category, nor its icon, nor its colour |
| CostBreakdownView.MaxCost | src/components/CostBreakdown.tsx:33 | the bar scale is at least 1, at least every cost, and either 1 or one of the costs |
| CostBreakdownView.BarPercentages | src/components/CostBreakdown.tsx:33-46 | one bar per item, each the item's cost divided by the scale, times 100; none wider than 100 percent, and none negative when the costs are non-negative |
| Strings.IncludesIffOccurs | src/components/CostBreakdown.tsx:10 | `includes` holds exactly when the text occurs at some position |
| Strings.LowerChar | src/components/CostBreakdown.tsx:9 | lowercasing maps A–Z to a–z and leaves every other character alone |
| Strings.ToLowerIdempotent | src/components/CostBreakdown.tsx:9 | lowercasing twice is lowercasing once |
| Strings.ToLowerIgnoresUpper | src/components/CostBreakdown.tsx:9-19 | lowercasing an upper-cased text gives the text lowercased |
| CostTypes.Percentage | src/components/CostBreakdown.tsx:46 | the percentage times the whole is a hundred times the part; a share of a positive whole is at most 100 when the part is at most the whole, non-negative for a non-negative part, and exactly 100 for the whole |
| S3ConfigForm.ValidateForm | src/components/S3ConfigForm.tsx:18-35 | the error record is exactly one message for each negative quantity |
| S3ConfigForm.FieldFlaggedIffNegative | src/components/S3ConfigForm.tsx:21-32 | each quantity is flagged with its own message exactly when it is negative |
| S3ConfigForm.NoErrorsIffNonNegative | src/components/S3ConfigForm.tsx:18-35 | the record is empty exactly when all four quantities are non-negative |
| S3ConfigForm.AcceptedConfigCostsNonNegative | src/components/S3ConfigForm.tsx:18-35 | a configuration the form accepts is priced non-negatively in every component |
| S3ConfigForm.HandleNumberChange | src/components/S3ConfigForm.tsx:37-40 | the named quantity takes the new value; the other quantities and the tier stay as they were |
| S3ConfigForm.NumberChangeIsLocal | src/components/S3ConfigForm.tsx:21-40 | an edit changes no other field's verdict, and flags the edited field exactly when the new value is negative |
| S3ConfigForm.HandleTierChange | src/components/S3ConfigForm.tsx:42-44 | only the tier changes |
| S3ConfigForm.TierChangeKeepsErrors | src/components/S3ConfigForm.tsx:18-44 | the tier never produces an error, so changing it leaves the record untouched |
| AuroraConfigForm.ValidateForm | src/components/AuroraConfigForm.tsx:22-45 | the error record is exactly one message for each field that breaks its variant's rule |
| AuroraConfigForm.ServerlessErrors | src/components/AuroraConfigForm.tsx:25-34 | Serverless v2 flags a minimum under 0.5 ACU, a maximum below the minimum and negative storage, and never the instance count |
| AuroraConfigForm.ProvisionedErrors | src/components/AuroraConfigForm.tsx:35-41 | provisioned flags fewer than one instance and negative storage, and never the ACU bounds |
| AuroraConfigForm.NeverFlagged | src/components/AuroraConfigForm.tsx:22-45 | I/O requests, backup storage and the instance type are never flagged |
| AuroraConfigForm.AcceptedConfigComputes | src/components/AuroraConfigForm.tsx:22-45 | a configuration the form accepts has a strictly positive compute charge |
| AuroraConfigForm.HandleTypeChange | src/components/AuroraConfigForm.tsx:47-71 | the new configuration carries the chosen tag and its defaults: 0.5 to 2 ACU for Serverless v2, one db.r6g.large for provisioned, and 100 GB storage, 1e6 I/O requests and 50 GB backup for both; the form accepts those defaults |
| AuroraConfigForm.HandleServerlessChange | src/components/AuroraConfigForm.tsx:73-80 | does nothing on a provisioned configuration; otherwise keeps the tag and changes only the named number |
| AuroraConfigForm.HandleProvisionedChange | src/components/AuroraConfigForm.tsx:82-89 | does nothing on a serverless configuration; otherwise keeps the tag and changes only the instance type or the named number |
| LambdaConfigForm.ValidateForm | src/components/LambdaConfigForm.tsx:25-39 | the error record is exactly one message for each field that breaks its rule |
| LambdaConfigForm.FieldFlaggedIffFails | src/components/LambdaConfigForm.tsx:28-36 | memory is flagged iff outside 128..10240 MB; invocations and duration are flagged iff negative |
| LambdaConfigForm.NoErrorsIff | src/components/LambdaConfigForm.tsx:25-39 | the form accepts a configuration exactly when memory is in range and the counts are non-negative |
| LambdaConfigForm.AcceptedConfigCostsNonNegative | src/components/LambdaConfigForm.tsx:25-39 | an accepted configuration has non-negative GB-seconds and a non-negative cost |
| LambdaConfigForm.HandleNumberChange | src/components/LambdaConfigForm.tsx:41-44 | the named quantity takes the new value; the others and the architecture stay |
| LambdaConfigForm.HandleArchitectureChange | src/components/LambdaConfigForm.tsx:46-48 | only the architecture changes |
| LambdaConfigForm.HandleMemoryTierSelect | src/components/LambdaConfigForm.tsx:50-52 | only the memory size changes |
| LambdaConfigForm.TierSelectAcceptsMemory | src/components/LambdaConfigForm.tsx:28-52 | selecting any quick-select memory tier never produces a memory error |
| LambdaConfigForm.CalculateGBSeconds | src/components/LambdaConfigForm.tsx:54-57 | the displayed GB-seconds are the calculator's GB-seconds |
| EcsConfigForm.ValidateForm | src/components/EcsConfigForm.tsx:26-41 | the error record holds the memory error and the hours error exactly when their rules are broken |
| EcsConfigForm.MemoryFlaggedIff | src/components/EcsConfigForm.tsx:29-34 | memory is flagged iff the vCPU size has a range and memory lies outside it, both bounds allowed; a size without a range never flags memory |
| EcsConfigForm.HoursFlaggedIff | src/components/EcsConfigForm.tsx:36-38 | hours are flagged iff outside 1..730; the vCPU field is never flagged |
| EcsConfigForm.ClampMemory | src/components/EcsConfigForm.tsx:54 | for an ordered range, a size below the range is raised to its minimum and one above is lowered to its maximum, the result is always in range, and a size already in range is unchanged |
| EcsConfigForm.ClampIdempotent | src/components/EcsConfigForm.tsx:54 | clamping twice is clamping once |
| EcsConfigForm.HandleVcpuSelect | src/components/EcsConfigForm.tsx:52-56 | a size without a range fails; otherwise vCPU takes the new size, memory is clamped into its range, and architecture and hours stay |
| EcsConfigForm.VcpuSelectAcceptsMemory | src/components/EcsConfigForm.tsx:29-55 | after selecting a size that has a range, memory is never flagged |
| EcsConfigForm.TierSelectAcceptsMemory | src/components/EcsConfigForm.tsx:52-56 | selecting any quick-select tier succeeds and leaves memory valid |
| EcsConfigForm.VcpuSelectKeepsFittingMemory | src/components/EcsConfigForm.tsx:54-55 | when memory already fits the new size's range, only vCPU changes |
| EcsConfigForm.HandleNumberChange | src/components/EcsConfigForm.tsx:43-46 | the named quantity takes the new value, without clamping; the others and the architecture stay |
| EcsConfigForm.HandleArchitectureChange | src/components/EcsConfigForm.tsx:48-50 | only the architecture changes |

## Left out

- Floating point: JavaScript `number` arithmetic is modelled by exact reals. Rounding of prices such as 0.005 / 1000 and the `toFixed` display formatting are not modelled.
- Input parsing: the handlers receive already-parsed numbers. `parseFloat`, its NaN result and the `|| 0` fallback are not modelled. `item.pricePerUnit` is a parsed `real`.
- The pricing fetch script and the JSON snapshot file are not part of this model. The snapshot is a parameter.
- React rendering, state hooks, animations, the landing page, the service selector and the theme toggle are not modelled. Only the values the components compute are.
- The per-service comparison pages are not modelled. They only wire a default configuration, a calculator and a form into the comparison view.
- Descriptions and display names that are not used in a computation are not modelled. This covers tier descriptions, memory-tier and vCPU-tier descriptions, and the architecture descriptions.
- The unreachable `default` arms of the S3 price switches are left out. The tier type is closed, so they cannot be reached.
- Strings.ToLower: only ASCII A–Z are mapped. JavaScript's full Unicode case mapping is not modelled.
- ComparisonChart.ChartData: a row holds the two values positionally. The object keys named after the two configuration labels are not modelled, so equal labels would collide in the source but not here. A configuration label equal to "category" would likewise overwrite the row's category key in the source; the comparison pages pass the fixed labels "Configuration 1" and "Configuration 2", so neither collision arises there.
- ComparisonLayout.Summarize: it requires that the larger total is 0 only when both totals are 0. Otherwise the source divides by zero and yields Infinity or NaN, which reals cannot represent.
- AuroraConfigForm.HandleServerlessChange: a field that the serverless record lacks leaves the record unchanged. In the source, the spread adds a stray property that nothing reads. The same holds for AuroraConfigForm.HandleProvisionedChange.
- AuroraConfigForm.HandleProvisionedChange: a number sent for the instance-type field leaves the record unchanged. The source would store the number as the type.
- EcsConfigForm.HandleVcpuSelect: a vCPU size without a range yields None. In the source, reading the range's bounds throws instead.
- EcsConfigForm.ValidateForm: the memory error carries the range and the vCPU size. The rendering of those numbers into the message text is not modelled.
- The `description` field of generic cost items is not modelled. No computation reads it.
