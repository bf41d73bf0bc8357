/**
 * Discovery of the cluster's network facts (`get_cluster_details`,
 * `get_vpc_cidr`, `get_private_subnets`): the checks made on the cloud's
 * answers and the choice of the two private subnets. The cloud's answers
 * are inputs; a call that raises is `None`.
 */
module Discovery {
  import opened Results
  import opened Tree
  import NetworkPatch

  /** What `describe_cluster` reports under `cluster.resourcesVpcConfig`: the
      VPC id when present, and the subnet ids (`[]` when absent). */
  datatype ClusterInfo = ClusterInfo(vpcId: Option<string>, subnetIds: seq<string>)

  /** One entry of `describe_vpcs`' `Vpcs`: its `CidrBlock`, when present. */
  datatype VpcRecord = VpcRecord(cidrBlock: Option<string>)

  /** One entry of `describe_subnets`' `Subnets`. */
  datatype SubnetRecord = SubnetRecord(subnetId: string, mapPublicIpOnLaunch: Option<bool>)

  /** The cloud as seen from the configured region: each call's answer, or
      `None` when the call raises. */
  datatype Cloud = Cloud(
    describeCluster: string -> Option<ClusterInfo>,
    describeVpcs: string -> Option<seq<VpcRecord>>,
    describeSubnets: seq<string> -> Option<seq<SubnetRecord>>)

  /** `get_cluster_details` after the call: a missing or empty VPC id, or no
      subnet ids, is an error; otherwise both are returned as reported. */
  function ClusterDetails(info: ClusterInfo): (r: Result<(string, seq<string>)>)
    ensures r.Ok? <==> info.vpcId.Some? && info.vpcId.value != [] && info.subnetIds != []
    ensures r.Ok? ==> r.value == (info.vpcId.value, info.subnetIds)
    ensures r.Err? ==> r.error == Discovery(NoVpcOrSubnets)
  {
    match info.vpcId
    case Some(id) =>
      if id == [] || info.subnetIds == [] then Err(Discovery(NoVpcOrSubnets))
      else Ok((id, info.subnetIds))
    case None => Err(Discovery(NoVpcOrSubnets))
  }

  /** `get_vpc_cidr` after the call: no VPC is an error; otherwise the first
      VPC's CIDR block, which is `None` when the record has none. */
  function VpcCidr(vpcs: seq<VpcRecord>): (r: Result<Node>)
    ensures r.Ok? <==> vpcs != []
    ensures r.Ok? && vpcs[0].cidrBlock.Some? ==> r.value == Str(vpcs[0].cidrBlock.value)
    ensures r.Ok? && vpcs[0].cidrBlock.None? ==> r.value == Null
    ensures r.Err? ==> r.error == Discovery(VpcNotFound)
  {
    if vpcs == [] then Err(Discovery(VpcNotFound))
    else
      match vpcs[0].cidrBlock
      case Some(c) => Ok(Str(c))
      case None => Ok(Null)
  }

  /** `not s.get("MapPublicIpOnLaunch", False)`: a missing flag counts as private. */
  predicate IsPrivate(s: SubnetRecord)
  {
    s.mapPublicIpOnLaunch != Some(true)
  }

  /** `[s["SubnetId"] for s in subs if not s.get("MapPublicIpOnLaunch", False)]`. */
  function PrivateIds(subs: seq<SubnetRecord>): seq<string>
  {
    if subs == [] then []
    else if IsPrivate(subs[0]) then [subs[0].subnetId] + PrivateIds(subs[1..])
    else PrivateIds(subs[1..])
  }

  /** `get_private_subnets` after the call: the first two private subnet ids,
      or an error when there are fewer than two. */
  function PrivateSubnets(subs: seq<SubnetRecord>): Result<seq<string>>
  {
    var priv := PrivateIds(subs);
    if |priv| < 2 then Err(Discovery(TooFewPrivateSubnets)) else Ok(priv[..2])
  }

  /** The position of the first private subnet, or `|subs|` when there is none. */
  function FirstPrivate(subs: seq<SubnetRecord>): (i: nat)
    ensures i <= |subs|
    ensures i < |subs| ==> IsPrivate(subs[i])
  {
    if subs == [] || IsPrivate(subs[0]) then 0 else 1 + FirstPrivate(subs[1..])
  }

  /** Every subnet before the first private one is public. */
  lemma {:induction false} BeforeFirstPrivate(subs: seq<SubnetRecord>)
    ensures forall m :: 0 <= m < FirstPrivate(subs) ==> !IsPrivate(subs[m])
  {
    if subs != [] && !IsPrivate(subs[0]) {
      BeforeFirstPrivate(subs[1..]);
      assert forall m :: 1 <= m < |subs| ==> subs[m] == subs[1..][m - 1];
    }
  }

  /** The filter keeps the first private subnet's id, then filters what follows it. */
  lemma {:induction false} PrivateIdsFirst(subs: seq<SubnetRecord>)
    ensures var i := FirstPrivate(subs);
      PrivateIds(subs) == if i == |subs| then [] else [subs[i].subnetId] + PrivateIds(subs[i + 1..])
  {
    if subs != [] && !IsPrivate(subs[0]) {
      PrivateIdsFirst(subs[1..]);
      var i' := FirstPrivate(subs[1..]);
      if i' < |subs[1..]| {
        assert subs[1..][i' + 1..] == subs[i' + 2..];
      }
    }
  }

  /** The position of the second private subnet, or `|subs|` when there are fewer than two. */
  function SecondPrivate(subs: seq<SubnetRecord>): (j: nat)
    ensures j <= |subs|
    ensures j < |subs| ==> FirstPrivate(subs) < j && IsPrivate(subs[j])
  {
    var i := FirstPrivate(subs);
    if i == |subs| then |subs| else i + 1 + FirstPrivate(subs[i + 1..])
  }

  /** Every subnet strictly between the first and the second private one is public. */
  lemma BetweenPrivates(subs: seq<SubnetRecord>)
    ensures forall m :: FirstPrivate(subs) < m < SecondPrivate(subs) ==> !IsPrivate(subs[m])
  {
    var i := FirstPrivate(subs);
    if i < |subs| {
      var rest := subs[i + 1..];
      BeforeFirstPrivate(rest);
      assert forall m :: i < m < |subs| ==> subs[m] == rest[m - i - 1];
    }
  }

  /** The first two elements of a list that starts with `a` and `b`. */
  lemma TakeTwo(p: seq<string>, a: string, b: string, t: seq<string>)
    requires p == [a] + ([b] + t)
    ensures |p| >= 2 && p[..2] == [a, b]
  {
  }

  /** `get_private_subnets` returns the ids at the first two private positions. */
  lemma PrivateSubnetsAt(subs: seq<SubnetRecord>)
    ensures PrivateSubnets(subs) ==
      if SecondPrivate(subs) < |subs| then Ok([subs[FirstPrivate(subs)].subnetId, subs[SecondPrivate(subs)].subnetId])
      else Err(Discovery(TooFewPrivateSubnets))
  {
    var i := FirstPrivate(subs);
    PrivateIdsFirst(subs);
    if i < |subs| {
      var rest := subs[i + 1..];
      var j' := FirstPrivate(rest);
      PrivateIdsFirst(rest);
      var all, after := PrivateIds(subs), PrivateIds(rest);
      assert all == [subs[i].subnetId] + after;
      if j' < |rest| {
        assert SecondPrivate(subs) == i + 1 + j';
        assert rest[j'] == subs[i + 1 + j'];
        assert after == [rest[j'].subnetId] + PrivateIds(rest[j' + 1..]);
        TakeTwo(all, subs[i].subnetId, rest[j'].subnetId, PrivateIds(rest[j' + 1..]));
      }
    }
  }

  /** `get_private_subnets` succeeds exactly when two private subnets exist;
      it then returns the ids of the first two in listing order: both are
      private and every other subnet before the second is public. Otherwise
      it fails with `TooFewPrivateSubnets`. */
  lemma PrivateSubnetsChosen(subs: seq<SubnetRecord>)
    ensures PrivateSubnets(subs).Ok? <==>
      exists i, j :: 0 <= i < j < |subs| && IsPrivate(subs[i]) && IsPrivate(subs[j])
    ensures PrivateSubnets(subs).Ok? ==>
      exists i, j :: 0 <= i < j < |subs| && IsPrivate(subs[i]) && IsPrivate(subs[j]) &&
        PrivateSubnets(subs).value == [subs[i].subnetId, subs[j].subnetId] &&
        forall k :: 0 <= k < j && k != i ==> !IsPrivate(subs[k])
    ensures PrivateSubnets(subs).Err? ==> PrivateSubnets(subs).error == Discovery(TooFewPrivateSubnets)
  {
    PrivateSubnetsAt(subs);
    BeforeFirstPrivate(subs);
    BetweenPrivates(subs);
    var i, j := FirstPrivate(subs), SecondPrivate(subs);
    if j < |subs| {
      assert 0 <= i < j < |subs| && IsPrivate(subs[i]) && IsPrivate(subs[j]);
    } else {
      forall i0, j0 | 0 <= i0 < j0 < |subs| && IsPrivate(subs[i0])
        ensures !IsPrivate(subs[j0])
      {
      }
    }
  }

  /** The discovery part of `main`: describe the cluster, read its VPC's CIDR
      block, and choose two private subnets. The first failure ends discovery. */
  function Discover(cloud: Cloud, cluster: string): (r: Result<NetworkPatch.Facts>)
    ensures r.Ok? ==> r.value.vpcId != [] && |r.value.subnets| == 2
    ensures r.Err? ==> r.error.Discovery?
  {
    match cloud.describeCluster(cluster)
    case None => Err(Discovery(CloudCallFailed))
    case Some(info) =>
      match ClusterDetails(info)
      case Err(e) => Err(e)
      case Ok((vpcId, subnetIds)) =>
        match cloud.describeVpcs(vpcId)
        case None => Err(Discovery(CloudCallFailed))
        case Some(vpcs) =>
          match VpcCidr(vpcs)
          case Err(e) => Err(e)
          case Ok(cidr) =>
            match cloud.describeSubnets(subnetIds)
            case None => Err(Discovery(CloudCallFailed))
            case Some(subs) =>
              match PrivateSubnets(subs)
              case Err(e) => Err(e)
              case Ok(priv) => Ok(NetworkPatch.Facts(vpcId, cidr, priv))
  }

  /** The facts discovery hands to the network patch come from the cloud's
      answers: the cluster's VPC, that VPC's CIDR block, and the first two
      private subnets among the cluster's subnets. */
  lemma DiscoveredFacts(cloud: Cloud, cluster: string)
    requires Discover(cloud, cluster).Ok?
    ensures var f := Discover(cloud, cluster).value;
      var info := cloud.describeCluster(cluster);
      info.Some? && info.value.vpcId == Some(f.vpcId) &&
      cloud.describeVpcs(f.vpcId).Some? && VpcCidr(cloud.describeVpcs(f.vpcId).value) == Ok(f.cidr) &&
      cloud.describeSubnets(info.value.subnetIds).Some? &&
      PrivateSubnets(cloud.describeSubnets(info.value.subnetIds).value) == Ok(f.subnets)
  {
  }
}
