/**
 * identify_unused_resources: four inventory calls, in the order EC2 instances,
 * EBS volumes, Elastic IPs, RDS instances, each turned into a list of rows.
 * A failing call ends the audit: the lists filled so far are returned and the
 * rest stay empty.
 */
module ResourceAudit {
  import opened Wrappers
  import opened Responses

  datatype InstanceRow = InstanceRow(id: string, instanceType: string, state: string, launchTime: string)
  datatype VolumeRow = VolumeRow(id: string, size: nat, volumeType: string, created: string)
  datatype AddressRow = AddressRow(ip: string, allocationId: string)
  datatype DbRow = DbRow(id: string, dbClass: string, engine: string, status: string)

  /** The result dict; its four keys are the four fields, so it always has exactly those. */
  datatype Unused = Unused(
    ec2Instances: seq<InstanceRow>,
    ebsVolumes: seq<VolumeRow>,
    elasticIps: seq<AddressRow>,
    rdsInstances: seq<DbRow>)

  const NothingUnused := Unused([], [], [], [])

  /** The RDS status the audit looks for. */
  const StoppedStatus: string := "stopped"

  function InstanceRowOf(i: Instance): InstanceRow
  {
    InstanceRow(i.instanceId, i.instanceType, i.stateName, i.launchTime)
  }

  function VolumeRowOf(v: Volume): VolumeRow
  {
    VolumeRow(v.volumeId, v.size, v.volumeType, v.createTime)
  }

  function AddressRowOf(a: Address): AddressRow
  {
    AddressRow(a.publicIp, a.allocationId.GetOr("N/A"))
  }

  function DbRowOf(d: DbInstance): DbRow
  {
    DbRow(d.identifier, d.instanceClass, d.engine, d.status)
  }

  // ----- the four lists, as functions of the inventories -----

  function InstancesOf(r: Reservation): seq<Instance>
  {
    OrEmpty(r.instances)
  }

  /** Instance rows of one reservation, in order. */
  function InstanceRows(insts: seq<Instance>): seq<InstanceRow>
  {
    if insts == [] then [] else InstanceRows(insts[..|insts| - 1]) + [InstanceRowOf(insts[|insts| - 1])]
  }

  /** Every instance of every reservation (AWS already kept only stopped ones), in order. */
  function StoppedInstanceRows(rs: seq<Reservation>): seq<InstanceRow>
  {
    if rs == [] then [] else StoppedInstanceRows(rs[..|rs| - 1]) + InstanceRows(InstancesOf(rs[|rs| - 1]))
  }

  /** Every volume (AWS already kept only available ones), in order. */
  function VolumeRows(vs: seq<Volume>): seq<VolumeRow>
  {
    if vs == [] then [] else VolumeRows(vs[..|vs| - 1]) + [VolumeRowOf(vs[|vs| - 1])]
  }

  /** The addresses without an `AssociationId`, in order. */
  function UnassociatedAddresses(addrs: seq<Address>): seq<AddressRow>
  {
    if addrs == [] then []
    else UnassociatedAddresses(addrs[..|addrs| - 1])
         + (if addrs[|addrs| - 1].associationId.None? then [AddressRowOf(addrs[|addrs| - 1])] else [])
  }

  /** The database instances whose status is "stopped", in order. */
  function StoppedDatabases(ds: seq<DbInstance>): seq<DbRow>
  {
    if ds == [] then []
    else StoppedDatabases(ds[..|ds| - 1])
         + (if ds[|ds| - 1].status == StoppedStatus then [DbRowOf(ds[|ds| - 1])] else [])
  }

  /**
   * The result of identify_unused_resources for the given call outcomes, and
   * the partial-result rule: every list is either empty or the complete list
   * for its own inventory; a list is complete once its own call and every
   * earlier call succeeded, so the lists filled before a failed call are
   * returned in full; a later list is non-empty only if every earlier call
   * succeeded; a failed call leaves every later list empty whatever the later
   * calls would give; when all four calls succeed, all four lists are complete.
   */
  function Audit(inv: Inventory): (r: Unused)
    ensures r.ec2Instances == [] ||
              (inv.instances.Fetched? && r.ec2Instances == StoppedInstanceRows(OrEmpty(inv.instances.response.reservations)))
    ensures r.ebsVolumes == [] ||
              (inv.volumes.Fetched? && r.ebsVolumes == VolumeRows(OrEmpty(inv.volumes.response.volumes)))
    ensures r.elasticIps == [] ||
              (inv.addresses.Fetched? && r.elasticIps == UnassociatedAddresses(OrEmpty(inv.addresses.response.addresses)))
    ensures r.rdsInstances == [] ||
              (inv.dbInstances.Fetched? && r.rdsInstances == StoppedDatabases(OrEmpty(inv.dbInstances.response.dbInstances)))
    ensures inv.instances.Fetched? ==>
              r.ec2Instances == StoppedInstanceRows(OrEmpty(inv.instances.response.reservations))
    ensures inv.instances.Fetched? && inv.volumes.Fetched? ==>
              r.ebsVolumes == VolumeRows(OrEmpty(inv.volumes.response.volumes))
    ensures inv.instances.Fetched? && inv.volumes.Fetched? && inv.addresses.Fetched? ==>
              r.elasticIps == UnassociatedAddresses(OrEmpty(inv.addresses.response.addresses))
    ensures r.ebsVolumes != [] ==> inv.instances.Fetched?
    ensures r.elasticIps != [] ==> inv.instances.Fetched? && inv.volumes.Fetched?
    ensures r.rdsInstances != [] ==> inv.instances.Fetched? && inv.volumes.Fetched? && inv.addresses.Fetched?
    ensures inv.instances.FetchFailed? ==> r == NothingUnused
    ensures inv.volumes.FetchFailed? ==> r.ebsVolumes == [] && r.elasticIps == [] && r.rdsInstances == []
    ensures inv.addresses.FetchFailed? ==> r.elasticIps == [] && r.rdsInstances == []
    ensures inv.dbInstances.FetchFailed? ==> r.rdsInstances == []
    ensures inv.instances.Fetched? && inv.volumes.Fetched? && inv.addresses.Fetched? && inv.dbInstances.Fetched? ==>
              r == Unused(
                StoppedInstanceRows(OrEmpty(inv.instances.response.reservations)),
                VolumeRows(OrEmpty(inv.volumes.response.volumes)),
                UnassociatedAddresses(OrEmpty(inv.addresses.response.addresses)),
                StoppedDatabases(OrEmpty(inv.dbInstances.response.dbInstances)))
  {
    match inv.instances
    case FetchFailed => NothingUnused
    case Fetched(ir) =>
      var ec2 := StoppedInstanceRows(OrEmpty(ir.reservations));
      match inv.volumes
      case FetchFailed => Unused(ec2, [], [], [])
      case Fetched(vr) =>
        var ebs := VolumeRows(OrEmpty(vr.volumes));
        match inv.addresses
        case FetchFailed => Unused(ec2, ebs, [], [])
        case Fetched(ar) =>
          var eips := UnassociatedAddresses(OrEmpty(ar.addresses));
          match inv.dbInstances
          case FetchFailed => Unused(ec2, ebs, eips, [])
          case Fetched(dr) => Unused(ec2, ebs, eips, StoppedDatabases(OrEmpty(dr.dbInstances)))
  }

  // ----- lemmas: each list is an order-preserving filter or map -----

  /** Every instance of every reservation gives one row, in reservation order then instance order. */
  lemma {:induction false} StoppedInstanceRowsConcat(a: seq<Reservation>, b: seq<Reservation>)
    ensures StoppedInstanceRows(a + b) == StoppedInstanceRows(a) + StoppedInstanceRows(b)
    decreases |b|
  {
    if b == [] {
      assert a + b == a;
    } else {
      var init, tail := b[..|b| - 1], InstanceRows(InstancesOf(b[|b| - 1]));
      assert (a + b)[..|a + b| - 1] == a + init;
      assert (a + b)[|a + b| - 1] == b[|b| - 1];
      StoppedInstanceRowsConcat(a, init);
      assert StoppedInstanceRows(a + b) == (StoppedInstanceRows(a) + StoppedInstanceRows(init)) + tail;
      assert StoppedInstanceRows(b) == StoppedInstanceRows(init) + tail;
    }
  }

  /** One row per instance, at the instance's own position. */
  lemma {:induction false} InstanceRowsAt(insts: seq<Instance>)
    ensures |InstanceRows(insts)| == |insts|
    ensures forall k :: 0 <= k < |insts| ==> InstanceRows(insts)[k] == InstanceRowOf(insts[k])
  {
    if insts != [] {
      InstanceRowsAt(insts[..|insts| - 1]);
    }
  }

  /** One row per volume, at the volume's own position. */
  lemma {:induction false} VolumeRowsAt(vs: seq<Volume>)
    ensures |VolumeRows(vs)| == |vs|
    ensures forall k :: 0 <= k < |vs| ==> VolumeRows(vs)[k] == VolumeRowOf(vs[k])
  {
    if vs != [] {
      VolumeRowsAt(vs[..|vs| - 1]);
    }
  }

  /** The Elastic IP filter keeps inventory order: filtering a concatenation concatenates the filtered parts. */
  lemma {:induction false} UnassociatedAddressesConcat(a: seq<Address>, b: seq<Address>)
    ensures UnassociatedAddresses(a + b) == UnassociatedAddresses(a) + UnassociatedAddresses(b)
    decreases |b|
  {
    if b == [] {
      assert a + b == a;
    } else {
      var init, tail := b[..|b| - 1], (if b[|b| - 1].associationId.None? then [AddressRowOf(b[|b| - 1])] else []);
      assert (a + b)[..|a + b| - 1] == a + init;
      assert (a + b)[|a + b| - 1] == b[|b| - 1];
      UnassociatedAddressesConcat(a, init);
      assert UnassociatedAddresses(a + b) == (UnassociatedAddresses(a) + UnassociatedAddresses(init)) + tail;
      assert UnassociatedAddresses(b) == UnassociatedAddresses(init) + tail;
    }
  }

  /** An Elastic IP is listed if and only if it has no AssociationId. */
  lemma {:induction false} UnassociatedAddressesMembers(addrs: seq<Address>)
    ensures forall row :: row in UnassociatedAddresses(addrs) <==>
              exists k :: 0 <= k < |addrs| && addrs[k].associationId.None? && AddressRowOf(addrs[k]) == row
  {
    if addrs != [] {
      var init := addrs[..|addrs| - 1];
      UnassociatedAddressesMembers(init);
      forall row ensures row in UnassociatedAddresses(addrs) <==>
                         exists k :: 0 <= k < |addrs| && addrs[k].associationId.None? && AddressRowOf(addrs[k]) == row
      {
        if row in UnassociatedAddresses(init) {
          var k :| 0 <= k < |init| && init[k].associationId.None? && AddressRowOf(init[k]) == row;
          assert addrs[k] == init[k];
        }
        if exists k :: 0 <= k < |addrs| && addrs[k].associationId.None? && AddressRowOf(addrs[k]) == row {
          var k :| 0 <= k < |addrs| && addrs[k].associationId.None? && AddressRowOf(addrs[k]) == row;
          if k < |init| {
            assert init[k] == addrs[k];
          }
        }
      }
    }
  }

  /** The RDS filter keeps inventory order: filtering a concatenation concatenates the filtered parts. */
  lemma {:induction false} StoppedDatabasesConcat(a: seq<DbInstance>, b: seq<DbInstance>)
    ensures StoppedDatabases(a + b) == StoppedDatabases(a) + StoppedDatabases(b)
    decreases |b|
  {
    if b == [] {
      assert a + b == a;
    } else {
      var init, tail := b[..|b| - 1], (if b[|b| - 1].status == StoppedStatus then [DbRowOf(b[|b| - 1])] else []);
      assert (a + b)[..|a + b| - 1] == a + init;
      assert (a + b)[|a + b| - 1] == b[|b| - 1];
      StoppedDatabasesConcat(a, init);
      assert StoppedDatabases(a + b) == (StoppedDatabases(a) + StoppedDatabases(init)) + tail;
      assert StoppedDatabases(b) == StoppedDatabases(init) + tail;
    }
  }

  /** An RDS instance is listed if and only if its status is "stopped". */
  lemma {:induction false} StoppedDatabasesMembers(ds: seq<DbInstance>)
    ensures forall row :: row in StoppedDatabases(ds) <==>
              exists k :: 0 <= k < |ds| && ds[k].status == StoppedStatus && DbRowOf(ds[k]) == row
  {
    if ds != [] {
      var init := ds[..|ds| - 1];
      StoppedDatabasesMembers(init);
      forall row ensures row in StoppedDatabases(ds) <==>
                         exists k :: 0 <= k < |ds| && ds[k].status == StoppedStatus && DbRowOf(ds[k]) == row
      {
        if row in StoppedDatabases(init) {
          var k :| 0 <= k < |init| && init[k].status == StoppedStatus && DbRowOf(init[k]) == row;
          assert ds[k] == init[k];
        }
        if exists k :: 0 <= k < |ds| && ds[k].status == StoppedStatus && DbRowOf(ds[k]) == row {
          var k :| 0 <= k < |ds| && ds[k].status == StoppedStatus && DbRowOf(ds[k]) == row;
          if k < |init| {
            assert init[k] == ds[k];
          }
        }
      }
    }
  }

  // ----- the imperative method -----

  /** identify_unused_resources: the calls in turn, each list filled by its own loop. */
  method IdentifyUnusedResources(inv: Inventory) returns (unused: Unused)
    ensures unused == Audit(inv)
  {
    unused := NothingUnused;

    // stopped EC2 instances
    if inv.instances.FetchFailed? {
      return;
    }
    var reservations := OrEmpty(inv.instances.response.reservations);
    var ec2: seq<InstanceRow> := [];
    for i := 0 to |reservations|
      invariant ec2 == StoppedInstanceRows(reservations[..i])
    {
      var instances := InstancesOf(reservations[i]);
      ghost var done := ec2;
      for j := 0 to |instances|
        invariant ec2 == done + InstanceRows(instances[..j])
      {
        assert instances[..j + 1][..j] == instances[..j];
        ec2 := ec2 + [InstanceRowOf(instances[j])];
      }
      assert instances[..|instances|] == instances;
      assert reservations[..i + 1][..i] == reservations[..i];
    }
    assert reservations[..|reservations|] == reservations;
    unused := unused.(ec2Instances := ec2);

    // unattached EBS volumes
    if inv.volumes.FetchFailed? {
      return;
    }
    var volumes := OrEmpty(inv.volumes.response.volumes);
    var ebs: seq<VolumeRow> := [];
    for i := 0 to |volumes|
      invariant ebs == VolumeRows(volumes[..i])
    {
      assert volumes[..i + 1][..i] == volumes[..i];
      ebs := ebs + [VolumeRowOf(volumes[i])];
    }
    assert volumes[..|volumes|] == volumes;
    unused := unused.(ebsVolumes := ebs);

    // unassociated Elastic IPs
    if inv.addresses.FetchFailed? {
      return;
    }
    var addresses := OrEmpty(inv.addresses.response.addresses);
    var eips: seq<AddressRow> := [];
    for i := 0 to |addresses|
      invariant eips == UnassociatedAddresses(addresses[..i])
    {
      assert addresses[..i + 1][..i] == addresses[..i];
      if addresses[i].associationId.None? {
        eips := eips + [AddressRowOf(addresses[i])];
      }
    }
    assert addresses[..|addresses|] == addresses;
    unused := unused.(elasticIps := eips);

    // stopped RDS instances
    if inv.dbInstances.FetchFailed? {
      return;
    }
    var databases := OrEmpty(inv.dbInstances.response.dbInstances);
    var rds: seq<DbRow> := [];
    for i := 0 to |databases|
      invariant rds == StoppedDatabases(databases[..i])
    {
      assert databases[..i + 1][..i] == databases[..i];
      if databases[i].status == StoppedStatus {
        rds := rds + [DbRowOf(databases[i])];
      }
    }
    assert databases[..|databases|] == databases;
    unused := unused.(rdsInstances := rds);
  }
}
