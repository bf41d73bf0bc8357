/**
 * `update_network_yaml`: on a ResourceGraphDefinition, point the
 * `securityGroup` resource at the cluster's VPC (its `vpcID`, and the
 * `cidrIP` of every IP range of every ingress rule) and give the
 * `subnetGroup` resource the two private subnets.
 */
module NetworkPatch {
  import opened Results
  import opened Tree
  import opened Documents

  /** The network facts written into the document. `cidr` is `Null` when the
      VPC record had no `CidrBlock` (Python then writes `None`). */
  datatype Facts = Facts(vpcId: string, cidr: Node, subnets: seq<string>)

  /*** Specification: what the loops compute ***/

  /** `ipr["cidrIP"] = cidr`; item assignment needs a dict. */
  function RangePatched(ipr: Node, cidr: Node): (r: Result<Node>)
    ensures r.Ok? <==> ipr.Map?
    ensures r.Ok? ==> r.value.Map? && Lookup(r.value.entries, "cidrIP") == Some(cidr)
    ensures r.Ok? ==> Remove(r.value.entries, "cidrIP") == Remove(ipr.entries, "cidrIP")
  {
    if ipr.Map? then Ok(Map(Assign(ipr.entries, "cidrIP", cidr))) else Err(Malformed)
  }

  /** The innermost loop, over one rule's IP ranges. */
  function RangesPatched(rs: seq<Node>, cidr: Node): (r: Result<seq<Node>>)
    ensures r.Ok? ==> |r.value| == |rs|
  {
    if rs == [] then Ok([])
    else
      match RangePatched(rs[0], cidr)
      case Err(e) => Err(e)
      case Ok(x) => Prefixed([x], RangesPatched(rs[1..], cidr))
  }

  /** Patching a rule changes nothing but its `ipRanges`. */
  lemma RuleFrame(rule: Node, cidr: Node)
    requires RulePatched(rule, cidr).Ok?
    ensures Remove(RulePatched(rule, cidr).value.entries, "ipRanges") == Remove(rule.entries, "ipRanges")
  {
  }

  /** The innermost loop succeeds exactly when every range is a dict, and then
      patches each range on its own. */
  lemma {:induction false} RangesPointwise(rs: seq<Node>, cidr: Node)
    ensures RangesPatched(rs, cidr).Ok? <==> forall i :: 0 <= i < |rs| ==> rs[i].Map?
    ensures RangesPatched(rs, cidr).Ok? ==>
      var out := RangesPatched(rs, cidr).value;
      |out| == |rs| && forall i :: 0 <= i < |rs| ==> RangePatched(rs[i], cidr) == Ok(out[i])
  {
    if rs != [] {
      RangesPointwise(rs[1..], cidr);
      assert forall i :: 1 <= i < |rs| ==> rs[i] == rs[1..][i - 1];
    }
  }

  /** `for ipr in rule.get("ipRanges", []): ...` for one ingress rule: only
      its `ipRanges` list can change, and then element by element. */
  function RulePatched(rule: Node, cidr: Node): (r: Result<Node>)
    ensures r.Ok? ==> rule.Map? && r.value.Map?
  {
    if !rule.Map? then Err(Malformed)
    else
      match Lookup(rule.entries, "ipRanges")
      case None => Ok(rule)
      case Some(v) =>
        match Elements(v)
        case Err(e) => Err(e)
        case Ok(items) =>
          match RangesPatched(items, cidr)
          case Err(e) => Err(e)
          case Ok(items') =>
            if items == [] then Ok(rule) else Ok(Map(Assign(rule.entries, "ipRanges", Seq(items'))))
  }

  /** What one more pass of the loop body does to the result of `RangesPatched`. */
  lemma RangesLoopStep(xs: seq<Node>, i: nat, done: seq<Node>, cidr: Node)
    requires i < |xs|
    ensures Prefixed(done, RangesPatched(xs[i..], cidr)) ==
      match RangePatched(xs[i], cidr)
      case Err(e) => Err(e)
      case Ok(x) => Prefixed(done + [x], RangesPatched(xs[i + 1..], cidr))
  {
    assert xs[i..][1..] == xs[i + 1..];
    if RangePatched(xs[i], cidr).Ok? {
      PrefixedStep(done, RangePatched(xs[i], cidr).value, RangesPatched(xs[i + 1..], cidr));
    }
  }

  /** The middle loop, over a security group's ingress rules. */
  function RulesPatched(rules: seq<Node>, cidr: Node): (r: Result<seq<Node>>)
    ensures r.Ok? ==> |r.value| == |rules|
  {
    if rules == [] then Ok([])
    else
      match RulePatched(rules[0], cidr)
      case Err(e) => Err(e)
      case Ok(x) => Prefixed([x], RulesPatched(rules[1..], cidr))
  }

  /** The middle loop, when it succeeds, patches each rule on its own. */
  lemma {:induction false} RulesPointwise(rules: seq<Node>, cidr: Node)
    ensures RulesPatched(rules, cidr).Ok? ==>
      var out := RulesPatched(rules, cidr).value;
      |out| == |rules| && forall i :: 0 <= i < |rules| ==> RulePatched(rules[i], cidr) == Ok(out[i])
  {
    if rules != [] {
      RulesPointwise(rules[1..], cidr);
      assert forall i :: 1 <= i < |rules| ==> rules[i] == rules[1..][i - 1];
    }
  }

  /** One more pass of the loop body over a rule it can patch: the rule's
      patched form joins the finished part. */
  lemma RulesLoopStep(xs: seq<Node>, i: nat, done: seq<Node>, cidr: Node, x: Node)
    requires i < |xs| && RulePatched(xs[i], cidr) == Ok(x)
    ensures Prefixed(done, RulesPatched(xs[i..], cidr)) == Prefixed(done + [x], RulesPatched(xs[i + 1..], cidr))
  {
    assert xs[i..][1..] == xs[i + 1..];
    PrefixedStep(done, x, RulesPatched(xs[i + 1..], cidr));
  }

  /** A rule the loop body cannot patch ends the loop with its error. */
  lemma RulesLoopStop(xs: seq<Node>, i: nat, done: seq<Node>, cidr: Node)
    requires i < |xs| && RulePatched(xs[i], cidr).Err?
    ensures Prefixed(done, RulesPatched(xs[i..], cidr)) == Err(RulePatched(xs[i], cidr).error)
  {
  }

  /** The `securityGroup` resource's `template.spec` after `spec["vpcID"] = vpc_id`
      and the loops over its ingress rules. */
  function SecurityGroupPatched(spec: seq<Entry>, f: Facts): Result<seq<Entry>>
  {
    var spec1 := Assign(spec, "vpcID", Str(f.vpcId));
    match Lookup(spec1, "ingressRules")
    case None => Ok(spec1)
    case Some(v) =>
      match Elements(v)
      case Err(e) => Err(e)
      case Ok(rules) =>
        match RulesPatched(rules, f.cidr)
        case Err(e) => Err(e)
        case Ok(rules') =>
          if rules == [] then Ok(spec1) else Ok(Assign(spec1, "ingressRules", Seq(rules')))
  }

  /** One pass of the outer loop's body over a resource entry. */
  function ResourcePatched(r: Node, f: Facts): (res: Result<Node>)
    ensures res.Ok? ==> r.Map? && res.value.Map?
    ensures res.Ok? && !HasText(r.entries, "id", "securityGroup") && !HasText(r.entries, "id", "subnetGroup")
            ==> res.value == r
  {
    if !r.Map? then Err(Malformed)
    else if HasText(r.entries, "id", "securityGroup") then
      match TemplateSpec(r.entries)
      case Err(e) => Err(e)
      case Ok(spec) =>
        match SecurityGroupPatched(spec, f)
        case Err(e) => Err(e)
        case Ok(spec') => Ok(Map(WithTemplateSpec(r.entries, spec')))
    else if HasText(r.entries, "id", "subnetGroup") then
      match TemplateSpec(r.entries)
      case Err(e) => Err(e)
      case Ok(spec) => Ok(Map(WithTemplateSpec(r.entries, Assign(spec, "subnetIDs", StrList(f.subnets)))))
    else Ok(r)
  }

  /** The outer loop, over `spec.resources`. */
  function ResourcesPatched(rs: seq<Node>, f: Facts): (r: Result<seq<Node>>)
    ensures r.Ok? ==> |r.value| == |rs|
  {
    if rs == [] then Ok([])
    else
      match ResourcePatched(rs[0], f)
      case Err(e) => Err(e)
      case Ok(x) => Prefixed([x], ResourcesPatched(rs[1..], f))
  }

  /** The outer loop, when it succeeds, patches each resource on its own. */
  lemma {:induction false} ResourcesPointwise(rs: seq<Node>, f: Facts)
    ensures ResourcesPatched(rs, f).Ok? ==>
      var out := ResourcesPatched(rs, f).value;
      |out| == |rs| && forall i :: 0 <= i < |rs| ==> ResourcePatched(rs[i], f) == Ok(out[i])
  {
    if rs != [] {
      ResourcesPointwise(rs[1..], f);
      assert forall i :: 1 <= i < |rs| ==> rs[i] == rs[1..][i - 1];
    }
  }

  /** What one more pass of the loop body does to the result of `ResourcesPatched`. */
  lemma ResourcesLoopStep(xs: seq<Node>, i: nat, done: seq<Node>, f: Facts)
    requires i < |xs|
    ensures Prefixed(done, ResourcesPatched(xs[i..], f)) ==
      match ResourcePatched(xs[i], f)
      case Err(e) => Err(e)
      case Ok(x) => Prefixed(done + [x], ResourcesPatched(xs[i + 1..], f))
  {
    assert xs[i..][1..] == xs[i + 1..];
    if ResourcePatched(xs[i], f).Ok? {
      PrefixedStep(done, ResourcePatched(xs[i], f).value, ResourcesPatched(xs[i + 1..], f));
    }
  }

  /** The document `update_network_yaml` writes back, or why it fails instead. */
  function Patched(doc: Node, f: Facts): (r: Result<Node>)
    ensures r.Ok? ==> KindOf(doc) == Some(ResourceGraphDefinition)
    ensures doc.Map? && KindOf(doc) != Some(ResourceGraphDefinition) ==> r == Err(KindMismatch(ResourceGraphDefinition))
    ensures r.Ok? ==> r.value.Map?
  {
    match CheckKind(doc, ResourceGraphDefinition)
    case Err(e) => Err(e)
    case Ok(es) =>
      match ResourceList(es)
      case Err(e) => Err(e)
      case Ok(rs) =>
        match ResourcesPatched(rs, f)
        case Err(e) => Err(e)
        case Ok(rs') => Ok(Map(WithResources(es, rs')))
  }

  /*** Properties of the network patch ***/

  /** Every IP range of every ingress rule in a security group's spec has `cidrIP == cidr`. */
  ghost predicate CidrEverywhere(spec: seq<Entry>, cidr: Node)
  {
    match Lookup(spec, "ingressRules")
    case None => true
    case Some(v) =>
      Elements(v).Ok? && forall rule <- Elements(v).value :: RuleCarriesCidr(rule, cidr)
  }

  /** Every IP range of the rule has `cidrIP == cidr`. */
  ghost predicate RuleCarriesCidr(rule: Node, cidr: Node)
  {
    rule.Map? &&
    match Lookup(rule.entries, "ipRanges")
    case None => true
    case Some(v) =>
      Elements(v).Ok? && forall ipr <- Elements(v).value :: ipr.Map? && Lookup(ipr.entries, "cidrIP") == Some(cidr)
  }

  /** Two IP ranges that differ at most in `cidrIP`. */
  ghost predicate RangeAgreesButCidr(x: Node, y: Node)
  {
    x.Map? && y.Map? && Remove(x.entries, "cidrIP") == Remove(y.entries, "cidrIP")
  }

  /** Two ingress rules that differ at most in the `cidrIP` of their IP ranges. */
  ghost predicate RuleAgreesButCidr(x: Node, y: Node)
  {
    x.Map? && y.Map? && Remove(x.entries, "ipRanges") == Remove(y.entries, "ipRanges") &&
    match (Lookup(x.entries, "ipRanges"), Lookup(y.entries, "ipRanges"))
    case (Some(Seq(xs)), Some(Seq(ys))) =>
      |xs| == |ys| && forall k :: 0 <= k < |xs| ==> RangeAgreesButCidr(xs[k], ys[k])
    case (a, b) => a == b
  }

  /** A security group's spec before and after: they differ at most in `vpcID`
      and in the `cidrIP` of the IP ranges under `ingressRules`. */
  ghost predicate SpecAgreesButNetwork(s: seq<Entry>, s': seq<Entry>)
  {
    Remove(Remove(s', "vpcID"), "ingressRules") == Remove(Remove(s, "vpcID"), "ingressRules") &&
    match (Lookup(s, "ingressRules"), Lookup(s', "ingressRules"))
    case (Some(Seq(xs)), Some(Seq(ys))) =>
      |xs| == |ys| && forall j :: 0 <= j < |xs| ==> RuleAgreesButCidr(xs[j], ys[j])
    case (a, b) => a == b
  }

  /** What the outer loop's body promises for one resource: a security group
      gets the VPC id and the CIDR on every IP range and nothing else; a
      subnet group gets the subnet list and nothing else; any other resource
      is left exactly as it was. */
  ghost predicate ResourceEffect(r: Node, r': Node, f: Facts)
  {
    r.Map? && r'.Map? &&
    if HasText(r.entries, "id", "securityGroup") then
      SameOutsideSpec(r.entries, r'.entries) &&
      TemplateSpec(r.entries).Ok? && TemplateSpec(r'.entries).Ok? &&
      var s, s' := TemplateSpec(r.entries).value, TemplateSpec(r'.entries).value;
      Lookup(s', "vpcID") == Some(Str(f.vpcId)) && CidrEverywhere(s', f.cidr) && SpecAgreesButNetwork(s, s')
    else if HasText(r.entries, "id", "subnetGroup") then
      SameOutsideSpec(r.entries, r'.entries) &&
      TemplateSpec(r.entries).Ok? && TemplateSpec(r'.entries).Ok? &&
      var s, s' := TemplateSpec(r.entries).value, TemplateSpec(r'.entries).value;
      Lookup(s', "subnetIDs") == Some(StrList(f.subnets)) && Remove(s', "subnetIDs") == Remove(s, "subnetIDs")
    else
      r' == r
  }

  /** A rule after the innermost loop carries the CIDR on every range and
      differs from the original rule only there. */
  lemma RuleEffect(rule: Node, cidr: Node)
    requires RulePatched(rule, cidr).Ok?
    ensures RuleCarriesCidr(RulePatched(rule, cidr).value, cidr)
    ensures RuleAgreesButCidr(rule, RulePatched(rule, cidr).value)
  {
    var v := Lookup(rule.entries, "ipRanges");
    if v.Some? && Elements(v.value).value != [] {
      RangesPointwise(Elements(v.value).value, cidr);
    }
  }

  /** What the patch makes of a security group's spec: `vpcID` is set, and a
      non-empty list of ingress rules is replaced by the rules patched one by one. */
  lemma SecurityGroupShape(spec: seq<Entry>, f: Facts)
    requires SecurityGroupPatched(spec, f).Ok?
    ensures var v, spec1 := Lookup(spec, "ingressRules"), Assign(spec, "vpcID", Str(f.vpcId));
      var s' := SecurityGroupPatched(spec, f).value;
      if v.Some? && v.value.Seq? && v.value.items != [] then
        RulesPatched(v.value.items, f.cidr).Ok? &&
        s' == Assign(spec1, "ingressRules", Seq(RulesPatched(v.value.items, f.cidr).value))
      else
        s' == spec1
  {
    assert "ingressRules"[0] != "vpcID"[0];
    AssignOther(spec, "vpcID", Str(f.vpcId), "ingressRules");
  }

  /** Outside `vpcID` and `ingressRules`, the security group's spec is unchanged. */
  lemma SecurityGroupFrame(spec: seq<Entry>, f: Facts)
    requires SecurityGroupPatched(spec, f).Ok?
    ensures var s' := SecurityGroupPatched(spec, f).value;
      Remove(Remove(s', "vpcID"), "ingressRules") == Remove(Remove(spec, "vpcID"), "ingressRules")
  {
    var s' := SecurityGroupPatched(spec, f).value;
    var spec1 := Assign(spec, "vpcID", Str(f.vpcId));
    SecurityGroupShape(spec, f);
    assert Remove(s', "ingressRules") == Remove(spec1, "ingressRules");
    assert Remove(Remove(s', "ingressRules"), "vpcID") == Remove(Remove(spec1, "ingressRules"), "vpcID");
    RemoveCommutes(s', "vpcID", "ingressRules");
    RemoveCommutes(spec1, "vpcID", "ingressRules");
    assert Remove(spec1, "vpcID") == Remove(spec, "vpcID");
  }

  /** Every range of the patched spec's rules carries the CIDR. */
  lemma SecurityGroupCidr(spec: seq<Entry>, f: Facts)
    requires SecurityGroupPatched(spec, f).Ok?
    ensures CidrEverywhere(SecurityGroupPatched(spec, f).value, f.cidr)
  {
    SecurityGroupShape(spec, f);
    var v := Lookup(spec, "ingressRules");
    if v.Some? && v.value.Seq? && v.value.items != [] {
      var rules := v.value.items;
      RulesPointwise(rules, f.cidr);
      var rules' := RulesPatched(rules, f.cidr).value;
      assert Lookup(SecurityGroupPatched(spec, f).value, "ingressRules") == Some(Seq(rules'));
      forall j | 0 <= j < |rules| ensures RuleCarriesCidr(rules'[j], f.cidr) {
        RuleEffect(rules[j], f.cidr);
      }
    } else {
      AssignOther(spec, "vpcID", Str(f.vpcId), "ingressRules");
      if v.Some? {
        assert Elements(v.value).Ok? && Elements(v.value).value == [];
      }
    }
  }

  /** The patched spec differs from the original only in `vpcID` and the ranges' `cidrIP`. */
  lemma SecurityGroupAgrees(spec: seq<Entry>, f: Facts)
    requires SecurityGroupPatched(spec, f).Ok?
    ensures SpecAgreesButNetwork(spec, SecurityGroupPatched(spec, f).value)
  {
    SecurityGroupFrame(spec, f);
    SecurityGroupShape(spec, f);
    var v := Lookup(spec, "ingressRules");
    if v.Some? && v.value.Seq? && v.value.items != [] {
      var rules := v.value.items;
      RulesPointwise(rules, f.cidr);
      var rules' := RulesPatched(rules, f.cidr).value;
      assert Lookup(SecurityGroupPatched(spec, f).value, "ingressRules") == Some(Seq(rules'));
      forall j | 0 <= j < |rules| ensures RuleAgreesButCidr(rules[j], rules'[j]) {
        RuleEffect(rules[j], f.cidr);
      }
    } else {
      AssignOther(spec, "vpcID", Str(f.vpcId), "ingressRules");
    }
  }

  /** The security group's spec after the patch: `vpcID` set, every range's
      `cidrIP` set, and nothing else changed. */
  lemma SecurityGroupEffect(spec: seq<Entry>, f: Facts)
    requires SecurityGroupPatched(spec, f).Ok?
    ensures Lookup(SecurityGroupPatched(spec, f).value, "vpcID") == Some(Str(f.vpcId))
    ensures CidrEverywhere(SecurityGroupPatched(spec, f).value, f.cidr)
    ensures SpecAgreesButNetwork(spec, SecurityGroupPatched(spec, f).value)
  {
    SecurityGroupCidr(spec, f);
    SecurityGroupAgrees(spec, f);
  }

  /** One resource after the outer loop's body. */
  lemma ResourceEffectHolds(r: Node, f: Facts)
    requires ResourcePatched(r, f).Ok?
    ensures ResourceEffect(r, ResourcePatched(r, f).value, f)
  {
    if HasText(r.entries, "id", "securityGroup") {
      SecurityGroupEffect(TemplateSpec(r.entries).value, f);
    }
  }

  /** What `update_network_yaml` writes, when it writes: the document differs
      from the loaded one only in its resource list, which keeps its length,
      and each resource changes exactly as `ResourceEffect` says. */
  lemma NetworkEffect(doc: Node, f: Facts)
    requires Patched(doc, f).Ok?
    ensures doc.Map? && Patched(doc, f).value.Map?
    ensures SameOutsideResources(doc.entries, Patched(doc, f).value.entries)
    ensures ResourceList(doc.entries).Ok? && ResourceList(Patched(doc, f).value.entries).Ok?
    ensures var rs, rs' := ResourceList(doc.entries).value, ResourceList(Patched(doc, f).value.entries).value;
      |rs'| == |rs| && forall i :: 0 <= i < |rs| ==> ResourceEffect(rs[i], rs'[i], f)
  {
    var rs := ResourceList(doc.entries).value;
    ResourcesPointwise(rs, f);
    forall i | 0 <= i < |rs| ensures ResourceEffect(rs[i], ResourcesPatched(rs, f).value[i], f) {
      ResourceEffectHolds(rs[i], f);
    }
  }

  /** Patching an already patched range again changes nothing. */
  lemma {:induction false} RangesFixed(rs: seq<Node>, cidr: Node)
    requires RangesPatched(rs, cidr).Ok?
    ensures RangesPatched(RangesPatched(rs, cidr).value, cidr) == RangesPatched(rs, cidr)
  {
    if rs != [] {
      RangesFixed(rs[1..], cidr);
      var x := RangePatched(rs[0], cidr).value;
      AssignTwice(rs[0].entries, "cidrIP", cidr, cidr);
      var out := RangesPatched(rs, cidr).value;
      assert out[0] == x && out[1..] == RangesPatched(rs[1..], cidr).value;
    }
  }

  /** Patching an already patched rule again changes nothing. */
  lemma RuleFixed(rule: Node, cidr: Node)
    requires RulePatched(rule, cidr).Ok?
    ensures RulePatched(RulePatched(rule, cidr).value, cidr) == RulePatched(rule, cidr)
  {
    var v := Lookup(rule.entries, "ipRanges");
    if v.Some? && Elements(v.value).value != [] {
      var items := Elements(v.value).value;
      var items' := RangesPatched(items, cidr).value;
      RangesPointwise(items, cidr);
      RangesFixed(items, cidr);
      AssignCurrent(Assign(rule.entries, "ipRanges", Seq(items')), "ipRanges", Seq(items'));
    }
  }

  /** Patching already patched rules again changes nothing. */
  lemma {:induction false} RulesFixed(rules: seq<Node>, cidr: Node)
    requires RulesPatched(rules, cidr).Ok?
    ensures RulesPatched(RulesPatched(rules, cidr).value, cidr) == RulesPatched(rules, cidr)
  {
    if rules != [] {
      RulesFixed(rules[1..], cidr);
      RuleFixed(rules[0], cidr);
      var out := RulesPatched(rules, cidr).value;
      assert out[0] == RulePatched(rules[0], cidr).value && out[1..] == RulesPatched(rules[1..], cidr).value;
    }
  }

  /** Patching an already patched security group spec again changes nothing. */
  lemma SecurityGroupFixed(spec: seq<Entry>, f: Facts)
    requires SecurityGroupPatched(spec, f).Ok?
    ensures SecurityGroupPatched(SecurityGroupPatched(spec, f).value, f) == SecurityGroupPatched(spec, f)
  {
    var s' := SecurityGroupPatched(spec, f).value;
    AssignCurrent(s', "vpcID", Str(f.vpcId));
    var spec1 := Assign(spec, "vpcID", Str(f.vpcId));
    var v := Lookup(spec1, "ingressRules");
    if v.Some? && Elements(v.value).value != [] {
      var rules := Elements(v.value).value;
      var rules' := RulesPatched(rules, f.cidr).value;
      RulesPointwise(rules, f.cidr);
      RulesFixed(rules, f.cidr);
      AssignCurrent(s', "ingressRules", Seq(rules'));
    }
  }

  /** Patching an already patched resource again changes nothing. */
  lemma ResourceFixed(r: Node, f: Facts)
    requires ResourcePatched(r, f).Ok?
    ensures ResourcePatched(ResourcePatched(r, f).value, f) == ResourcePatched(r, f)
  {
    var r' := ResourcePatched(r, f).value;
    if HasText(r.entries, "id", "securityGroup") {
      var spec := TemplateSpec(r.entries).value;
      SecurityGroupFixed(spec, f);
      WithTemplateSpecCurrent(r'.entries, SecurityGroupPatched(spec, f).value);
    } else if HasText(r.entries, "id", "subnetGroup") {
      var spec' := Assign(TemplateSpec(r.entries).value, "subnetIDs", StrList(f.subnets));
      AssignCurrent(spec', "subnetIDs", StrList(f.subnets));
      WithTemplateSpecCurrent(r'.entries, spec');
    }
  }

  /** Patching already patched resources again changes nothing. */
  lemma {:induction false} ResourcesFixed(rs: seq<Node>, f: Facts)
    requires ResourcesPatched(rs, f).Ok?
    ensures ResourcesPatched(ResourcesPatched(rs, f).value, f) == ResourcesPatched(rs, f)
  {
    if rs != [] {
      ResourcesFixed(rs[1..], f);
      ResourceFixed(rs[0], f);
      var out := ResourcesPatched(rs, f).value;
      assert out[0] == ResourcePatched(rs[0], f).value && out[1..] == ResourcesPatched(rs[1..], f).value;
    }
  }

  /** Running the network patch on its own output with the same facts gives
      the same document: every field it writes is assigned, not accumulated. */
  lemma NetworkIdempotent(doc: Node, f: Facts)
    requires Patched(doc, f).Ok?
    ensures Patched(Patched(doc, f).value, f) == Patched(doc, f)
  {
    var es := doc.entries;
    var rs := ResourceList(es).value;
    var rs' := ResourcesPatched(rs, f).value;
    var d := WithResources(es, rs');
    WithResourcesKind(es, rs');
    ResourcesFixed(rs, f);
    WithResourcesCurrent(d, rs');
  }

  /*** Implementation: the loops as the script runs them ***/

  /** `for ipr in ranges: ipr["cidrIP"] = cidr`. */
  method PatchRanges(ranges: seq<Node>, cidr: Node) returns (r: Result<seq<Node>>)
    ensures r == RangesPatched(ranges, cidr)
  {
    var done: seq<Node> := [];
    var i := 0;
    assert ranges[0..] == ranges;
    PrefixedNothing(RangesPatched(ranges, cidr));
    while i < |ranges|
      invariant 0 <= i <= |ranges|
      invariant RangesPatched(ranges, cidr) == Prefixed(done, RangesPatched(ranges[i..], cidr))
    {
      RangesLoopStep(ranges, i, done, cidr);
      var ipr := ranges[i];
      if !ipr.Map? {
        return Err(Malformed);
      }
      done := done + [Map(Assign(ipr.entries, "cidrIP", cidr))];
      i := i + 1;
    }
    assert done + [] == done;
    return Ok(done);
  }

  /** One pass of the middle loop's body: `for ipr in rule.get("ipRanges", []): ...`. */
  method PatchRule(rule: Node, cidr: Node) returns (r: Result<Node>)
    ensures r == RulePatched(rule, cidr)
  {
    if !rule.Map? {
      return Err(Malformed);
    }
    var ranges := Lookup(rule.entries, "ipRanges");
    if ranges.None? {
      return Ok(rule);
    }
    var items := Elements(ranges.value);
    if items.Err? {
      return Err(items.error);
    }
    var patched := PatchRanges(items.value, cidr);
    if patched.Err? {
      return Err(patched.error);
    }
    if items.value == [] {
      return Ok(rule);
    }
    return Ok(Map(Assign(rule.entries, "ipRanges", Seq(patched.value))));
  }

  /** `for rule in rules: ...`, the middle loop. */
  method PatchRules(rules: seq<Node>, cidr: Node) returns (r: Result<seq<Node>>)
    ensures r == RulesPatched(rules, cidr)
  {
    var done: seq<Node> := [];
    var i := 0;
    assert rules[0..] == rules;
    PrefixedNothing(RulesPatched(rules, cidr));
    while i < |rules|
      invariant 0 <= i <= |rules|
      invariant RulesPatched(rules, cidr) == Prefixed(done, RulesPatched(rules[i..], cidr))
    {
      var rule := PatchRule(rules[i], cidr);
      if rule.Err? {
        RulesLoopStop(rules, i, done, cidr);
        return Err(rule.error);
      }
      RulesLoopStep(rules, i, done, cidr, rule.value);
      done := done + [rule.value];
      i := i + 1;
    }
    assert done + [] == done;
    return Ok(done);
  }

  /** The outer loop's body for one resource entry. */
  method PatchResource(res: Node, f: Facts) returns (r: Result<Node>)
    ensures r == ResourcePatched(res, f)
  {
    if !res.Map? {
      return Err(Malformed);
    }
    if HasText(res.entries, "id", "securityGroup") {
      var found := TemplateSpec(res.entries);
      if found.Err? {
        return Err(found.error);
      }
      var spec := Assign(found.value, "vpcID", Str(f.vpcId));
      var rules := Lookup(spec, "ingressRules");
      if rules.Some? {
        var items := Elements(rules.value);
        if items.Err? {
          return Err(items.error);
        }
        var patched := PatchRules(items.value, f.cidr);
        if patched.Err? {
          return Err(patched.error);
        }
        if items.value != [] {
          spec := Assign(spec, "ingressRules", Seq(patched.value));
        }
      }
      return Ok(Map(WithTemplateSpec(res.entries, spec)));
    } else if HasText(res.entries, "id", "subnetGroup") {
      var found := TemplateSpec(res.entries);
      if found.Err? {
        return Err(found.error);
      }
      return Ok(Map(WithTemplateSpec(res.entries, Assign(found.value, "subnetIDs", StrList(f.subnets)))));
    }
    return Ok(res);
  }

  /** `for r in resources: ...`, the outer loop. */
  method PatchResources(rs: seq<Node>, f: Facts) returns (r: Result<seq<Node>>)
    ensures r == ResourcesPatched(rs, f)
  {
    var done: seq<Node> := [];
    var i := 0;
    assert rs[0..] == rs;
    PrefixedNothing(ResourcesPatched(rs, f));
    while i < |rs|
      invariant 0 <= i <= |rs|
      invariant ResourcesPatched(rs, f) == Prefixed(done, ResourcesPatched(rs[i..], f))
    {
      var res := PatchResource(rs[i], f);
      ResourcesLoopStep(rs, i, done, f);
      if res.Err? {
        return Err(res.error);
      }
      done := done + [res.value];
      i := i + 1;
    }
    assert done + [] == done;
    return Ok(done);
  }

  /** `update_network_yaml` from the loaded document to the document it writes. */
  method Apply(doc: Node, f: Facts) returns (r: Result<Node>)
    ensures r == Patched(doc, f)
  {
    var checked := CheckKind(doc, ResourceGraphDefinition);
    if checked.Err? {
      return Err(checked.error);
    }
    var listed := ResourceList(checked.value);
    if listed.Err? {
      return Err(listed.error);
    }
    var patched := PatchResources(listed.value, f);
    if patched.Err? {
      return Err(patched.error);
    }
    return Ok(Map(WithResources(checked.value, patched.value)));
  }
}
