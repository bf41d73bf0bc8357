/**
 * Worked examples of the patchers on the shapes the workshop's templates
 * have: the network document with one security group and one subnet group,
 * and a DbWebStack instance with an enabled database.
 */
module Scenarios {
  import opened Results
  import opened Tree
  import opened Documents
  import NetworkPatch
  import StackPatch

  /** An ingress rule with one IP range. */
  function Rule(cidr: string): Node
  {
    Map([Entry("ipRanges", Seq([Map([Entry("cidrIP", Str(cidr))])]))])
  }

  /** A resource entry with an `id` and a `template.spec`. */
  function Resource(id: string, spec: seq<Entry>): Node
  {
    Map([Entry("id", Str(id)), Entry("template", Map([Entry("spec", Map(spec))]))])
  }

  function SecurityGroup(vpc: string, cidr: string): Node
  {
    Resource("securityGroup", [Entry("vpcID", Str(vpc)), Entry("ingressRules", Seq([Rule(cidr)]))])
  }

  function SubnetGroup(subnets: Node): Node
  {
    Resource("subnetGroup", [Entry("subnetIDs", subnets)])
  }

  function NetworkDoc(sg: Node, sn: Node): Node
  {
    Map([Entry("kind", Str(ResourceGraphDefinition)), Entry("spec", Map([Entry("resources", Seq([sg, sn]))]))])
  }

  /** Replacing the only entry of a one-entry mapping. */
  lemma AssignOnly(k: string, v: Node, v': Node)
    ensures Assign([Entry(k, v)], k, v') == [Entry(k, v')]
  {
    var es := [Entry(k, v)];
    assert es[1..] == [];
    assert [Entry(k, v')] + [] == [Entry(k, v')];
  }

  /** Putting a new `template.spec` into a resource entry. */
  lemma ResourceSpecReplaced(id: string, spec: seq<Entry>, spec': seq<Entry>)
    ensures Resource(id, spec).entries[1..] == [Entry("template", Map([Entry("spec", Map(spec))]))]
    ensures TemplateSpec(Resource(id, spec).entries) == Ok(spec)
    ensures WithTemplateSpec(Resource(id, spec).entries, spec') == Resource(id, spec').entries
  {
    var es := Resource(id, spec).entries;
    var t := Map([Entry("spec", Map(spec'))]);
    assert es[1..] == [Entry("template", Map([Entry("spec", Map(spec))]))];
    AssignOnly("spec", Map(spec), Map(spec'));
    AssignOnly("template", es[1].value, t);
    assert Assign(es, "template", t) == [es[0]] + [Entry("template", t)];
  }

  /** The ingress-rule loops set the one range's `cidrIP`. */
  lemma RuleScenario(cidr: string)
    ensures NetworkPatch.RulesPatched([Rule("")], Str(cidr)) == Ok([Rule(cidr)])
  {
    var range, range' := Map([Entry("cidrIP", Str(""))]), Map([Entry("cidrIP", Str(cidr))]);
    AssignOnly("cidrIP", Str(""), Str(cidr));
    assert NetworkPatch.RangePatched(range, Str(cidr)) == Ok(range');
    assert [range][1..] == [] && [range'] + [] == [range'];
    assert NetworkPatch.RangesPatched([range], Str(cidr)) == Ok([range']);
    AssignOnly("ipRanges", Seq([range]), Seq([range']));
    assert NetworkPatch.RulePatched(Rule(""), Str(cidr)) == Ok(Rule(cidr));
    assert [Rule("")][1..] == [] && [Rule(cidr)] + [] == [Rule(cidr)];
  }

  /** The `spec` of a blank security group gets the VPC id and the CIDR block. */
  lemma SecurityGroupSpecScenario(f: NetworkPatch.Facts, cidr: string)
    requires f.cidr == Str(cidr)
    ensures NetworkPatch.SecurityGroupPatched([Entry("vpcID", Str("")), Entry("ingressRules", Seq([Rule("")]))], f)
         == Ok([Entry("vpcID", Str(f.vpcId)), Entry("ingressRules", Seq([Rule(cidr)]))])
  {
    RuleScenario(cidr);
    var spec := [Entry("vpcID", Str("")), Entry("ingressRules", Seq([Rule("")]))];
    var spec1 := [Entry("vpcID", Str(f.vpcId)), Entry("ingressRules", Seq([Rule("")]))];
    var spec' := [Entry("vpcID", Str(f.vpcId)), Entry("ingressRules", Seq([Rule(cidr)]))];
    assert spec[1..] == spec1[1..] == [Entry("ingressRules", Seq([Rule("")]))];
    assert Assign(spec, "vpcID", Str(f.vpcId)) == spec1;
    AssignOnly("ingressRules", Seq([Rule("")]), Seq([Rule(cidr)]));
    assert Assign(spec1, "ingressRules", Seq([Rule(cidr)])) == spec';
  }

  /** A blank security group gets the VPC id and the CIDR block. */
  lemma SecurityGroupScenario(f: NetworkPatch.Facts, cidr: string)
    requires f.cidr == Str(cidr)
    ensures NetworkPatch.ResourcePatched(SecurityGroup("", ""), f) == Ok(SecurityGroup(f.vpcId, cidr))
  {
    var spec := [Entry("vpcID", Str("")), Entry("ingressRules", Seq([Rule("")]))];
    var spec' := [Entry("vpcID", Str(f.vpcId)), Entry("ingressRules", Seq([Rule(cidr)]))];
    SecurityGroupSpecScenario(f, cidr);
    ResourceSpecReplaced("securityGroup", spec, spec');
  }

  /** A subnet group with an empty list gets the discovered subnet ids. */
  lemma SubnetGroupScenario(f: NetworkPatch.Facts)
    ensures NetworkPatch.ResourcePatched(SubnetGroup(Seq([])), f) == Ok(SubnetGroup(StrList(f.subnets)))
  {
    AssignOnly("subnetIDs", Seq([]), StrList(f.subnets));
    ResourceSpecReplaced("subnetGroup", [Entry("subnetIDs", Seq([]))], [Entry("subnetIDs", StrList(f.subnets))]);
    assert HasText(SubnetGroup(Seq([])).entries, "id", "subnetGroup");
  }

  /** The resource list of the network document and its replacement. */
  lemma NetworkDocResources(sg: Node, sn: Node, sg': Node, sn': Node)
    ensures ResourceList(NetworkDoc(sg, sn).entries) == Ok([sg, sn])
    ensures WithResources(NetworkDoc(sg, sn).entries, [sg', sn']) == NetworkDoc(sg', sn').entries
  {
    var doc := NetworkDoc(sg, sn).entries;
    assert doc[1..] == [Entry("spec", Map([Entry("resources", Seq([sg, sn]))]))];
    assert Lookup(doc, "spec") == Some(doc[1].value);
    assert Lookup(doc[1].value.entries, "resources") == Some(Seq([sg, sn]));
    AssignOnly("resources", Seq([sg, sn]), Seq([sg', sn']));
    AssignOnly("spec", doc[1].value, Map([Entry("resources", Seq([sg', sn']))]));
  }

  /** The loop over the two resources patches both. */
  lemma NetworkResourcesScenario(f: NetworkPatch.Facts, cidr: string)
    requires f.cidr == Str(cidr)
    ensures NetworkPatch.ResourcesPatched([SecurityGroup("", ""), SubnetGroup(Seq([]))], f)
         == Ok([SecurityGroup(f.vpcId, cidr), SubnetGroup(StrList(f.subnets))])
  {
    var sg, sg' := SecurityGroup("", ""), SecurityGroup(f.vpcId, cidr);
    var sn, sn' := SubnetGroup(Seq([])), SubnetGroup(StrList(f.subnets));
    SecurityGroupScenario(f, cidr);
    SubnetGroupScenario(f);
    assert [sg, sn][1..] == [sn] && [sn][1..] == [];
    assert NetworkPatch.ResourcesPatched([], f) == Ok([]) && [sn'] + [] == [sn'];
    assert NetworkPatch.ResourcesPatched([sn], f) == Ok([sn']);
    assert [sg'] + [sn'] == [sg', sn'];
  }

  /** The network template with blank values, patched with discovered facts,
      carries the VPC id, the CIDR block and the subnet ids in place of the
      blanks and is otherwise unchanged. */
  lemma NetworkScenario(f: NetworkPatch.Facts, cidr: string)
    requires f.cidr == Str(cidr)
    ensures NetworkPatch.Patched(NetworkDoc(SecurityGroup("", ""), SubnetGroup(Seq([]))), f)
         == Ok(NetworkDoc(SecurityGroup(f.vpcId, cidr), SubnetGroup(StrList(f.subnets))))
  {
    var sg, sg' := SecurityGroup("", ""), SecurityGroup(f.vpcId, cidr);
    var sn, sn' := SubnetGroup(Seq([])), SubnetGroup(StrList(f.subnets));
    NetworkResourcesScenario(f, cidr);
    NetworkDocResources(sg, sn, sg', sn');
    assert KindOf(NetworkDoc(sg, sn)) == Some(ResourceGraphDefinition);
  }

  function DbDoc(image: string, region: string): Node
  {
    Map([Entry("kind", Str(DbWebStackKind)),
         Entry("spec", Map([Entry("image", Str(image)),
                            Entry("rds", Map([Entry("enabled", Bool(true)), Entry("awsRegion", Str(region))]))]))])
  }

  /** The `spec` of an enabled DbWebStack gets the image and the region. */
  lemma DbSpecScenario(image: string, region: string)
    requires region != []
    ensures StackPatch.DbSpecPatched(DbDoc("", "").entries[1].value.entries, image, region)
         == Ok(DbDoc(image, region).entries[1].value.entries)
  {
    var rds := [Entry("enabled", Bool(true)), Entry("awsRegion", Str(""))];
    var rds' := [Entry("enabled", Bool(true)), Entry("awsRegion", Str(region))];
    var spec := [Entry("image", Str("")), Entry("rds", Map(rds))];
    var spec1 := [Entry("image", Str(image)), Entry("rds", Map(rds))];
    var spec' := [Entry("image", Str(image)), Entry("rds", Map(rds'))];
    assert spec[1..] == [Entry("rds", Map(rds))];
    assert Assign(spec, "image", Str(image)) == spec1;
    assert StackPatch.Enabled(rds);
    AssignOnly("awsRegion", Str(""), Str(region));
    assert rds[1..] == [Entry("awsRegion", Str(""))];
    assert Assign(rds, "awsRegion", Str(region)) == rds';
    AssignOnly("rds", Map(rds), Map(rds'));
    assert spec1[1..] == [Entry("rds", Map(rds))];
    assert Assign(spec1, "rds", Map(rds')) == spec';
    assert StackPatch.RegionPatched(spec1, region) == Ok(spec');
  }

  /** A DbWebStack instance with an enabled database, patched with a
      repository, a tag and a region, points at `<repository>:<tag>` and
      names the region. */
  lemma DbWebStackScenario(repo: string, tag: string, region: string)
    requires region != []
    ensures StackPatch.DbWebStackPatched(DbDoc("", ""), repo, tag, region)
         == Ok(DbDoc(StackPatch.ImageRef(repo, tag), region))
  {
    var image := StackPatch.ImageRef(repo, tag);
    DbSpecScenario(image, region);
    var es := DbDoc("", "").entries;
    assert es[1..] == [Entry("spec", es[1].value)];
    var spec' := DbDoc(image, region).entries[1].value;
    AssignOnly("spec", es[1].value, spec');
    assert Assign(es, "spec", spec') == [es[0]] + [Entry("spec", spec')] == DbDoc(image, region).entries;
    assert KindOf(DbDoc("", "")) == Some(DbWebStackKind);
    assert Lookup(es, "spec") == Some(es[1].value);
  }
}
