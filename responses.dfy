/**
 * The shapes of the AWS responses the analyzer reads, reduced to the fields it
 * touches. A dictionary key that the code reads with `.get(key, [])` is an
 * `Option`; a key it tests with `in` is an `Option` too. A call whose exception
 * the analyzer catches is a `Fetch` that may be `FetchFailed`.
 */
module Responses {
  import opened Wrappers

  /** `lst.get(key, [])`: a missing list reads as the empty list. */
  function OrEmpty<T>(o: Option<seq<T>>): seq<T>
  {
    o.GetOr([])
  }

  // ----- Cost Explorer: get_cost_and_usage (grouped by SERVICE) -----

  /** One element of `Groups`: `Keys[0]` and `Metrics.UnblendedCost.Amount`. */
  datatype CostGroup = CostGroup(service: string, unblendedAmount: real)

  /** One element of `ResultsByTime`: `TimePeriod.Start` and the optional `Groups`. */
  datatype TimeBucket = TimeBucket(start: string, groups: Option<seq<CostGroup>>)

  /**
   * The response of the cost-and-usage query. `resultsByTime` is `None` both
   * when the key is missing and when the fetch failed (the fetch then returns `{}`).
   */
  datatype CostAndUsage = CostAndUsage(resultsByTime: Option<seq<TimeBucket>>)

  // ----- Cost Explorer: get_cost_forecast -----

  /**
   * The forecast response: the `MeanValue` of each `ForecastResultsByTime`
   * entry, or `None` when the key is missing or the fetch failed.
   */
  datatype CostForecast = CostForecast(forecastResultsByTime: Option<seq<real>>)

  // ----- EC2 and RDS inventories -----

  /** One EC2 instance: `InstanceId`, `InstanceType`, `State.Name` and `LaunchTime` (already in ISO form). */
  datatype Instance = Instance(instanceId: string, instanceType: string, stateName: string, launchTime: string)

  /** One element of `Reservations`, with its optional `Instances`. */
  datatype Reservation = Reservation(instances: Option<seq<Instance>>)

  /** describe_instances, already filtered by AWS to `instance-state-name = stopped`. */
  datatype InstancesResponse = InstancesResponse(reservations: Option<seq<Reservation>>)

  /** One EBS volume: `VolumeId`, `Size` (GiB), `VolumeType` and `CreateTime` (already in ISO form). */
  datatype Volume = Volume(volumeId: string, size: nat, volumeType: string, createTime: string)

  /** describe_volumes, already filtered by AWS to `status = available`. */
  datatype VolumesResponse = VolumesResponse(volumes: Option<seq<Volume>>)

  /** One Elastic IP: `PublicIp` and the optional `AllocationId` and `AssociationId`. */
  datatype Address = Address(publicIp: string, allocationId: Option<string>, associationId: Option<string>)

  /** describe_addresses (unfiltered). */
  datatype AddressesResponse = AddressesResponse(addresses: Option<seq<Address>>)

  /** One RDS instance: `DBInstanceIdentifier`, `DBInstanceClass`, `Engine`, `DBInstanceStatus`. */
  datatype DbInstance = DbInstance(identifier: string, instanceClass: string, engine: string, status: string)

  /** describe_db_instances (unfiltered). */
  datatype DbInstancesResponse = DbInstancesResponse(dbInstances: Option<seq<DbInstance>>)

  /** The outcome of one inventory call: its response, or an exception. */
  datatype Fetch<+T> = Fetched(response: T) | FetchFailed

  /**
   * What the four inventory calls would return, in the order the audit makes
   * them. A call after a failed one is never made, so its value is ignored.
   */
  datatype Inventory = Inventory(
    instances: Fetch<InstancesResponse>,
    volumes: Fetch<VolumesResponse>,
    addresses: Fetch<AddressesResponse>,
    dbInstances: Fetch<DbInstancesResponse>)
}
