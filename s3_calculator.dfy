/**
 * The S3 storage cost calculator (src/utils/s3Calculator.ts) with the tier
 * and record shapes it works on (src/types/s3.ts).
 *
 * The JSON pricing snapshot the source imports at build time is a parameter
 * here: a sequence of entries, each with an optional usage type, an optional
 * operation and an already-parsed price.
 */
module S3Calculator {
  import opened Wrappers
  import opened Strings
  import opened CostTypes

  datatype S3StorageTier =
    | Standard
    | StandardIA
    | OneZoneIA
    | GlacierInstant
    | GlacierFlexible
    | GlacierDeep

  datatype S3StorageConfig = S3StorageConfig(
    tier: S3StorageTier,
    storageGB: real,
    putRequests: real,
    getRequests: real,
    dataTransferGB: real)

  datatype S3CostBreakdown = S3CostBreakdown(
    storageCost: real,
    putRequestsCost: real,
    getRequestsCost: real,
    dataTransferCost: real,
    totalCost: real)

  /** One entry of the pricing snapshot's `s3` array. */
  datatype PricingEntry = PricingEntry(usagetype: Option<string>, operation: Option<string>, price: real)

  type PricingSnapshot = seq<PricingEntry>

  /** The usage-type aliases tried, in order, for a tier's storage price. */
  function TierStorageClasses(tier: S3StorageTier): (aliases: seq<string>)
    ensures |aliases| == 2
  {
    match tier
    case Standard => ["S3-Standard", "S3-Storage"]
    case StandardIA => ["S3-StandardIA", "S3-SIA"]
    case OneZoneIA => ["S3-OneZone-IA", "S3-OZ-IA"]
    case GlacierInstant => ["S3-Glacier-Instant", "S3-GIR"]
    case GlacierFlexible => ["S3-Glacier-Flexible", "S3-Glacier"]
    case GlacierDeep => ["S3-Glacier-Deep", "S3-GDA"]
  }

  /** Standard tries the plain alias first and the generic storage alias second. */
  lemma StandardAliasesOrder()
    ensures TierStorageClasses(Standard) == ["S3-Standard", "S3-Storage"]
    ensures TierStorageClasses(GlacierFlexible) == ["S3-Glacier-Flexible", "S3-Glacier"]
  {
  }

  /**
   * The predicate of the `find` in findPricingItem: the usage type is present
   * and contains `usageType`, and the operation is equal to `operation`
   * unless no operation (or the empty one) was asked for.
   */
  predicate Matches(entry: PricingEntry, usageType: string, operation: Option<string>)
  {
    && entry.usagetype.Some?
    && Includes(entry.usagetype.value, usageType)
    && (operation.None? || operation.value == "" || entry.operation == operation)
  }

  /** Index `k` holds the first matching entry of the snapshot. */
  predicate IsFirstMatch(snapshot: PricingSnapshot, k: int, usageType: string, operation: Option<string>)
  {
    && 0 <= k < |snapshot|
    && Matches(snapshot[k], usageType, operation)
    && forall j :: 0 <= j < k ==> !Matches(snapshot[j], usageType, operation)
  }

  predicate NoMatch(snapshot: PricingSnapshot, usageType: string, operation: Option<string>)
  {
    forall k :: 0 <= k < |snapshot| ==> !Matches(snapshot[k], usageType, operation)
  }

  /**
   * The price of the first matching entry, or 0 when nothing matches. It is
   * the first match that decides, even when its price is 0.
   */
  function FindPricingItem(snapshot: PricingSnapshot, usageType: string, operation: Option<string>): real
  {
    if snapshot == [] then
      0.0
    else if Matches(snapshot[0], usageType, operation) then
      snapshot[0].price
    else
      FindPricingItem(snapshot[1..], usageType, operation)
  }

  /** The lookup yields the first matching entry's price, and 0 when no entry matches. */
  lemma {:induction false} FindPricingItemFirstMatch(snapshot: PricingSnapshot, usageType: string, operation: Option<string>)
    ensures NoMatch(snapshot, usageType, operation) ==> FindPricingItem(snapshot, usageType, operation) == 0.0
    ensures forall k :: IsFirstMatch(snapshot, k, usageType, operation) ==>
              FindPricingItem(snapshot, usageType, operation) == snapshot[k].price
  {
    if snapshot != [] && !Matches(snapshot[0], usageType, operation) {
      FindPricingItemFirstMatch(snapshot[1..], usageType, operation);
      assert forall k :: IsFirstMatch(snapshot, k, usageType, operation) ==> IsFirstMatch(snapshot[1..], k - 1, usageType, operation);
      assert NoMatch(snapshot, usageType, operation) ==> NoMatch(snapshot[1..], usageType, operation) by {
        if NoMatch(snapshot, usageType, operation) {
          forall k | 0 <= k < |snapshot[1..]| ensures !Matches(snapshot[1..][k], usageType, operation) {
            assert snapshot[1..][k] == snapshot[k + 1];
          }
        }
      }
    }
  }

  /** The usage type searched for a storage alias. */
  function StorageUsageType(storageClass: string): string
  {
    "TimedStorage-" + storageClass
  }

  /** The snapshot's price for one storage alias. */
  function AliasPrice(snapshot: PricingSnapshot, storageClass: string): real
  {
    FindPricingItem(snapshot, StorageUsageType(storageClass), None)
  }

  /** No alias of the list has a strictly positive snapshot price. */
  predicate NoPositiveAlias(snapshot: PricingSnapshot, aliases: seq<string>)
  {
    forall i :: 0 <= i < |aliases| ==> AliasPrice(snapshot, aliases[i]) <= 0.0
  }

  /** Alias i is the first one with a strictly positive snapshot price. */
  predicate IsFirstPositiveAlias(snapshot: PricingSnapshot, aliases: seq<string>, i: int)
  {
    0 <= i < |aliases| && AliasPrice(snapshot, aliases[i]) > 0.0
    && forall j :: 0 <= j < i ==> AliasPrice(snapshot, aliases[j]) <= 0.0
  }

  /**
   * The loop of getStoragePricePerGB: the first alias whose lookup is
   * strictly positive, if any.
   */
  function FirstPositivePrice(snapshot: PricingSnapshot, aliases: seq<string>): (r: Option<real>)
    ensures r.Some? ==> r.value > 0.0
  {
    if aliases == [] then
      None
    else
      var price := AliasPrice(snapshot, aliases[0]);
      if price > 0.0 then Some(price) else FirstPositivePrice(snapshot, aliases[1..])
  }

  /**
   * The aliases are tried in order: nothing is found exactly when no alias
   * has a positive price, and otherwise the first positive alias is found.
   */
  lemma {:induction false} FirstPositivePriceSpec(snapshot: PricingSnapshot, aliases: seq<string>)
    ensures FirstPositivePrice(snapshot, aliases).None? <==> NoPositiveAlias(snapshot, aliases)
    ensures FirstPositivePrice(snapshot, aliases).Some? ==>
              exists i :: IsFirstPositiveAlias(snapshot, aliases, i)
                          && FirstPositivePrice(snapshot, aliases).value == AliasPrice(snapshot, aliases[i])
  {
    if aliases != [] {
      if AliasPrice(snapshot, aliases[0]) > 0.0 {
        assert IsFirstPositiveAlias(snapshot, aliases, 0);
      } else {
        var r := FirstPositivePrice(snapshot, aliases[1..]);
        FirstPositivePriceSpec(snapshot, aliases[1..]);
        assert forall i :: 1 <= i < |aliases| ==> aliases[i] == aliases[1..][i - 1];
        if r.Some? {
          var k :| IsFirstPositiveAlias(snapshot, aliases[1..], k) && r.value == AliasPrice(snapshot, aliases[1..][k]);
          assert IsFirstPositiveAlias(snapshot, aliases, k + 1);
        }
      }
    }
  }

  /** The fixed per-GB storage price used when the snapshot has none. */
  function FallbackStoragePrice(tier: S3StorageTier): real
  {
    match tier
    case Standard => 0.023
    case StandardIA => 0.0125
    case OneZoneIA => 0.01
    case GlacierInstant => 0.004
    case GlacierFlexible => 0.0036
    case GlacierDeep => 0.00099
  }

  /**
   * The per-GB monthly storage price: the first strictly positive snapshot
   * price over the tier's aliases, otherwise the tier's fixed price. Either
   * way it is strictly positive.
   */
  function StoragePricePerGB(snapshot: PricingSnapshot, tier: S3StorageTier): (price: real)
    ensures price > 0.0
  {
    match FirstPositivePrice(snapshot, TierStorageClasses(tier))
    case Some(price) => price
    case None => FallbackStoragePrice(tier)
  }

  /**
   * Where the storage price comes from: the tier's fixed price when no alias
   * has a positive snapshot price, and otherwise the first alias price that
   * is positive.
   */
  lemma StoragePriceSource(snapshot: PricingSnapshot, tier: S3StorageTier)
    ensures NoPositiveAlias(snapshot, TierStorageClasses(tier)) ==> StoragePricePerGB(snapshot, tier) == FallbackStoragePrice(tier)
    ensures !NoPositiveAlias(snapshot, TierStorageClasses(tier)) ==>
              exists i :: IsFirstPositiveAlias(snapshot, TierStorageClasses(tier), i)
                          && StoragePricePerGB(snapshot, tier) == AliasPrice(snapshot, TierStorageClasses(tier)[i])
  {
    FirstPositivePriceSpec(snapshot, TierStorageClasses(tier));
  }

  predicate IsGlacier(tier: S3StorageTier)
  {
    tier.GlacierInstant? || tier.GlacierFlexible? || tier.GlacierDeep?
  }

  function PutRequestPrice(tier: S3StorageTier): real
  {
    match tier
    case Standard | StandardIA | OneZoneIA => 0.005 / 1000.0
    case GlacierInstant | GlacierFlexible | GlacierDeep => 0.02 / 1000.0
  }

  function GetRequestPrice(tier: S3StorageTier): real
  {
    match tier
    case Standard => 0.0004 / 1000.0
    case StandardIA | OneZoneIA => 0.001 / 1000.0
    case GlacierInstant => 0.01 / 1000.0
    case GlacierFlexible => 0.0004 / 1000.0
    case GlacierDeep => 0.0004 / 1000.0
  }

  /**
   * The per-GB data-transfer price: the rate of the single bracket that
   * contains the whole volume (brackets end at 10 TB, 50 TB and 150 TB,
   * inclusive).
   */
  function DataTransferPrice(gb: real): real
  {
    if gb <= 0.0 then 0.0
    else if gb <= 10240.0 then 0.09
    else if gb <= 51200.0 then 0.085
    else if gb <= 153600.0 then 0.07
    else 0.05
  }

  /** The data-transfer cost: the whole volume at one bracket's rate. */
  function DataTransferCost(gb: real): real
  {
    gb * DataTransferPrice(gb)
  }

  function CalculateS3Costs(snapshot: PricingSnapshot, config: S3StorageConfig): (b: S3CostBreakdown)
    ensures b.totalCost == b.storageCost + b.putRequestsCost + b.getRequestsCost + b.dataTransferCost
    ensures b.storageCost == config.storageGB * StoragePricePerGB(snapshot, config.tier)
    ensures b.putRequestsCost == config.putRequests * PutRequestPrice(config.tier)
    ensures b.getRequestsCost == config.getRequests * GetRequestPrice(config.tier)
    ensures b.dataTransferCost == DataTransferCost(config.dataTransferGB)
  {
    var storagePrice := StoragePricePerGB(snapshot, config.tier);
    var putPrice := PutRequestPrice(config.tier);
    var getPrice := GetRequestPrice(config.tier);

    var storageCost := config.storageGB * storagePrice;
    var putRequestsCost := config.putRequests * putPrice;
    var getRequestsCost := config.getRequests * getPrice;

    var dataTransferCost := DataTransferCost(config.dataTransferGB);

    var totalCost := storageCost + putRequestsCost + getRequestsCost + dataTransferCost;
    S3CostBreakdown(storageCost, putRequestsCost, getRequestsCost, dataTransferCost, totalCost)
  }

  function S3CostToGeneric(b: S3CostBreakdown): (g: GenericCostBreakdown)
    ensures Labels(g.items) == ["Storage", "PUT Requests", "GET Requests", "Data Transfer"]
    ensures Costs(g.items) == [b.storageCost, b.putRequestsCost, b.getRequestsCost, b.dataTransferCost]
    ensures g.total == b.totalCost
  {
    GenericCostBreakdown(
      [ CostItem("Storage", b.storageCost),
        CostItem("PUT Requests", b.putRequestsCost),
        CostItem("GET Requests", b.getRequestsCost),
        CostItem("Data Transfer", b.dataTransferCost) ],
      b.totalCost)
  }

  // ---------------------------------------------------------------------
  // Properties
  // ---------------------------------------------------------------------

  /** The projected breakdown's items add up to its total. */
  lemma S3GenericIsConsistent(snapshot: PricingSnapshot, config: S3StorageConfig)
    ensures Consistent(S3CostToGeneric(CalculateS3Costs(snapshot, config)))
  {
    var b := CalculateS3Costs(snapshot, config);
    var items := S3CostToGeneric(b).items;
    assert SumCosts(items[3..]) == b.dataTransferCost;
    assert SumCosts(items[2..]) == b.getRequestsCost + b.dataTransferCost;
    assert SumCosts(items[1..]) == b.putRequestsCost + b.getRequestsCost + b.dataTransferCost;
  }

  /** A snapshot without usable entries leaves the fixed storage prices in force. */
  lemma EmptySnapshotUsesFallback(tier: S3StorageTier)
    ensures StoragePricePerGB([], tier) == FallbackStoragePrice(tier)
  {
    var aliases := TierStorageClasses(tier);
    assert AliasPrice([], aliases[0]) == 0.0 && AliasPrice([], aliases[1]) == 0.0;
    StoragePriceSource([], tier);
  }

  /**
   * The lookup takes the first match even when its price is 0: a zero-priced
   * entry hides a positive one after it.
   */
  lemma FirstMatchNotFirstPositive()
    ensures FindPricingItem(
              [ PricingEntry(Some("USE1-TimedStorage-ByteHrs"), None, 0.0),
                PricingEntry(Some("TimedStorage-ByteHrs"), None, 0.023) ],
              "TimedStorage", None) == 0.0
  {
    var s := [ PricingEntry(Some("USE1-TimedStorage-ByteHrs"), None, 0.0),
               PricingEntry(Some("TimedStorage-ByteHrs"), None, 0.023) ];
    var usage := s[0].usagetype.value;
    assert usage[5..17] == "TimedStorage";
    assert OccursAt(usage, "TimedStorage", 5);
    IncludesIffOccurs(usage, "TimedStorage");
    assert IsFirstMatch(s, 0, "TimedStorage", None);
    FindPricingItemFirstMatch(s, "TimedStorage", None);
  }

  /** Entries without a usage type never match. */
  lemma NoUsageTypeNeverMatches(entry: PricingEntry, usageType: string, operation: Option<string>)
    requires entry.usagetype.None?
    ensures !Matches(entry, usageType, operation)
  {
  }

  /** Each tier's fixed storage price; all are positive and STANDARD is the dearest. */
  lemma FallbackStoragePrices(tier: S3StorageTier)
    ensures 0.0 < FallbackStoragePrice(tier) <= FallbackStoragePrice(Standard) == 0.023
    ensures FallbackStoragePrice(GlacierDeep) == 0.00099 <= FallbackStoragePrice(tier)
  {
  }

  /** PUT requests come in two price classes; the Glacier class is four times dearer. */
  lemma PutPriceClasses(tier: S3StorageTier)
    ensures !IsGlacier(tier) ==> PutRequestPrice(tier) == 0.000005
    ensures IsGlacier(tier) ==> PutRequestPrice(tier) == 0.00002 == 4.0 * PutRequestPrice(Standard)
  {
  }

  /** GLACIER_INSTANT has the highest GET price of every tier. */
  lemma GlacierInstantGetIsHighest(tier: S3StorageTier)
    ensures GetRequestPrice(tier) <= GetRequestPrice(GlacierInstant) == 0.00001
    ensures tier != GlacierInstant ==> GetRequestPrice(tier) < GetRequestPrice(GlacierInstant)
  {
  }

  /** The transfer price is positive exactly for a positive volume. */
  lemma TransferPricePositiveIff(gb: real)
    ensures DataTransferPrice(gb) > 0.0 <==> gb > 0.0
    ensures DataTransferPrice(gb) <= 0.09
  {
  }

  /** The per-GB transfer price never rises as the volume grows. */
  lemma TransferPriceNonIncreasing(a: real, b: real)
    requires 0.0 < a <= b
    ensures DataTransferPrice(b) <= DataTransferPrice(a)
  {
  }

  /**
   * Because the whole volume is billed at one bracket's rate, the transfer
   * cost falls when the volume crosses the first bracket edge.
   */
  lemma TransferCostNotMonotone()
    ensures DataTransferCost(10240.0) == 921.6
    ensures DataTransferCost(10241.0) == 870.485
    ensures DataTransferCost(10241.0) < DataTransferCost(10240.0)
  {
  }

  /** Non-negative quantities give non-negative components and total. */
  lemma S3CostsNonNegative(snapshot: PricingSnapshot, config: S3StorageConfig)
    requires config.storageGB >= 0.0 && config.putRequests >= 0.0
    requires config.getRequests >= 0.0 && config.dataTransferGB >= 0.0
    ensures var b := CalculateS3Costs(snapshot, config);
            b.storageCost >= 0.0 && b.putRequestsCost >= 0.0 && b.getRequestsCost >= 0.0
            && b.dataTransferCost >= 0.0 && b.totalCost >= 0.0
  {
    var b := CalculateS3Costs(snapshot, config);
    assert b.storageCost >= 0.0 by {
      ProductNonNegative(config.storageGB, StoragePricePerGB(snapshot, config.tier));
    }
    assert b.putRequestsCost >= 0.0 by {
      ProductNonNegative(config.putRequests, PutRequestPrice(config.tier));
    }
    assert b.getRequestsCost >= 0.0 by {
      ProductNonNegative(config.getRequests, GetRequestPrice(config.tier));
    }
    assert b.dataTransferCost >= 0.0 by {
      ProductNonNegative(config.dataTransferGB, DataTransferPrice(config.dataTransferGB));
    }
  }

  lemma ProductNonNegative(x: real, y: real)
    requires x >= 0.0 && y >= 0.0
    ensures x * y >= 0.0
  {
  }

  /** The worked example: STANDARD, 100 GB, 10,000 PUT, 100,000 GET, 50 GB out, no snapshot. */
  lemma StandardExample()
    ensures var b := CalculateS3Costs([], S3StorageConfig(Standard, 100.0, 10000.0, 100000.0, 50.0));
            b == S3CostBreakdown(2.3, 0.05, 0.04, 4.5, 6.89)
  {
    EmptySnapshotUsesFallback(Standard);
  }
}
