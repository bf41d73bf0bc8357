# Workshop configuration sync, modelled in Dafny

`update_yaml.py` prepares a workshop's Kubernetes resource documents for one
EKS cluster. It first discovers three network facts:

- the cluster's VPC id;
- that VPC's CIDR block;
- the first two private subnets of the cluster.

It then rewrites fields of five configuration documents in a fixed order:

1. the network ResourceGraphDefinition gets the VPC id, the CIDR block of every ingress rule's IP ranges, and the subnet ids;
2. the identity ResourceGraphDefinition gets the cluster name on its pod identity associations and its role's trust policy re-encoded as indented JSON when it is a mapping or a JSON string, and otherwise kept as text;
3. the DbWebStack instance gets its image and database region;
4. the WebStack instance gets its image and cluster name;
5. the WebApp ResourceGraphDefinition gets the ingress class on its `ingress` resources.

Each patcher checks the document's `kind` first. Any failure ends the run with exit status 1. Documents written before the failure stay written.

The model works on the document tree that the YAML loader produces:

- `Tree.Node` has mappings as ordered entry lists, lists, strings, numbers, booleans and null.
- A `Literal` string stands for the block-literal render hint `LiteralString`.
- Python's dict operations become functions on entry lists. `Tree.Assign` is `d[k] = v`: an existing key keeps its place and a new key goes last.
- Every exception a malformed document would raise (KeyError, TypeError, AttributeError) becomes `Err(Malformed)`.

The three loop-carrying patchers (network, identity, ingress) are written twice:

- once as recursive specification functions (`Patched`, `ResourcesPatched`, ...);
- once as methods with the loops the script runs (`Apply`, `PatchResources`, ...).

Each method is proved to compute its specification function. Lemmas then state what the functions change, what they leave alone, and that the network and ingress patches are idempotent.

The driver (`Pipeline`) is a `Workspace` class whose `files` map is the disk. `Run` performs, in order:

1. the existence checks;
2. the repository-URI check;
3. discovery;
4. the five updates.

`Run` is proved to equal the specification function `Sync`. The lemmas about `Steps` state the fail-fast, no-rollback behaviour.

Things outside the model are parameters:

- **Cloud:** `Discovery.Cloud` gives each cloud call's answer, or `None` when the call raises.
- **Text conversions:** `IdentityPatch.Codecs` gives JSON `dumps`/`loads` and Python `str`.
- **Loading:** a file is `Parsed(doc)` or `Unparsable`.
- **Writing:** `yaml.dump` writes text that loads back as the document without its `Literal` hints (`Pipeline.Written`).

## Model

| member | source | states |
|---|---|---|
| Tree.Assign | kro-and-ack/bootstrap/workshop-and-image-build/update_yaml.py:83 | after `d[k] = v` the key reads `v`, every other key reads as before, nothing but `k` changes, and the dict grows by one entry exactly when `k` was new |
| Tree.KeyIndex | kro-and-ack/bootstrap/workshop-and-image-build/update_yaml.py:83 | the position of a key in a dict is that of its first entry: no earlier entry has the key, and a position inside the dict exists exactly when the key is present |
| Tree.AssignInPlace | kro-and-ack/bootstrap/workshop-and-image-build/update_yaml.py:83 | `d[k] = v` on a key the dict has keeps the key where it was and leaves every entry before and after it as it was |
| Tree.AssignAppends | kro-and-ack/bootstrap/workshop-and-image-build/update_yaml.py:83 | `d[k] = v` on a key the dict lacks adds one entry after all the others, so the dumped document lists it last |
| Tree.Contains | kro-and-ack/bootstrap/workshop-and-image-build/update_yaml.py:108 | `k in x` is a key test on a dict and an element test on a list, and raises exactly on numbers, booleans and `None` |
| Tree.Elements | kro-and-ack/bootstrap/workshop-and-image-build/update_yaml.py:84-85 | a list yields its items; any other value either yields nothing or fails, so a non-empty iteration always came from a list |
| Tree.StrList | kro-and-ack/bootstrap/workshop-and-image-build/update_yaml.py:88 | the subnet list written into the document holds the given ids, one string per id, in order |
| Tree.WithTemplateSpec | kro-and-ack/bootstrap/workshop-and-image-build/update_yaml.py:82-83 | changing `r["template"]["spec"]` in place leaves a resource whose `template.spec` is the new dict and whose other keys, and other template keys, are unchanged |
| Documents.CheckKind | kro-and-ack/bootstrap/workshop-and-image-build/update_yaml.py:78-79 | a patcher continues exactly when the document is a mapping whose `kind` is the expected literal; a mapping of another kind fails with `KindMismatch` |
| Documents.WithResources | kro-and-ack/bootstrap/workshop-and-image-build/update_yaml.py:80 | after the loop rewrote the resources, the document's resource list is the new one and nothing outside `spec.resources` changed |
| Discovery.ClusterDetails | kro-and-ack/bootstrap/workshop-and-image-build/update_yaml.py:46-52 | the cluster check succeeds exactly when the VPC id is present and non-empty and the subnet list is non-empty, and then returns both unchanged; otherwise it fails with `NoVpcOrSubnets` |
| Discovery.VpcCidr | kro-and-ack/bootstrap/workshop-and-image-build/update_yaml.py:57-60 | fails with `VpcNotFound` exactly when no VPC is listed; otherwise returns the first VPC's CIDR block, or `None` when it has none |
| Discovery.PrivateSubnetsAt | kro-and-ack/bootstrap/workshop-and-image-build/update_yaml.py:66-69 | the filter-and-slice returns the ids at the first and second private positions, or fails when there is no second private subnet |
| Discovery.PrivateSubnetsChosen | kro-and-ack/bootstrap/workshop-and-image-build/update_yaml.py:66-69 | succeeds exactly when two subnets without public-IP auto-assignment (a missing flag counts as private) exist; the two ids returned are private, in listing order, and every other subnet before the second is public; otherwise the error is `TooFewPrivateSubnets` |
| Discovery.Discover | kro-and-ack/bootstrap/workshop-and-image-build/update_yaml.py:215-217 | discovery yields a non-empty VPC id and exactly two subnet ids, and every failure it reports is a discovery failure |
| Discovery.DiscoveredFacts | kro-and-ack/bootstrap/workshop-and-image-build/update_yaml.py:215-217 | the facts handed to the network patch are the described cluster's VPC id, that VPC's CIDR block and the private subnets chosen among the cluster's own subnets |
| NetworkPatch.RangePatched | kro-and-ack/bootstrap/workshop-and-image-build/update_yaml.py:86 | an IP range can be patched exactly when it is a dict; its `cidrIP` then reads the CIDR and nothing else in it changes |
| NetworkPatch.RangesPatched | kro-and-ack/bootstrap/workshop-and-image-build/update_yaml.py:85-86 | the innermost loop, when it succeeds, yields one range per range |
| NetworkPatch.RangesPointwise | kro-and-ack/bootstrap/workshop-and-image-build/update_yaml.py:85-86 | the innermost loop succeeds exactly when every range is a dict, and then patches each range independently of the others |
| NetworkPatch.RuleFrame | kro-and-ack/bootstrap/workshop-and-image-build/update_yaml.py:84-86 | patching a rule changes nothing outside its `ipRanges` |
| NetworkPatch.RulesPatched | kro-and-ack/bootstrap/workshop-and-image-build/update_yaml.py:84 | the rule loop, when it succeeds, yields one rule per rule |
| NetworkPatch.RulesPointwise | kro-and-ack/bootstrap/workshop-and-image-build/update_yaml.py:84-86 | the rule loop, when it succeeds, patches each rule independently of the others |
| NetworkPatch.ResourcePatched | kro-and-ack/bootstrap/workshop-and-image-build/update_yaml.py:81-88 | a resource whose id is neither `securityGroup` nor `subnetGroup` comes out exactly as it went in |
| NetworkPatch.ResourcesPatched | kro-and-ack/bootstrap/workshop-and-image-build/update_yaml.py:80 | the resource loop, when it succeeds, yields one resource per resource |
| NetworkPatch.ResourcesPointwise | kro-and-ack/bootstrap/workshop-and-image-build/update_yaml.py:80-88 | the resource loop, when it succeeds, patches each resource independently of the others |
| NetworkPatch.Patched | kro-and-ack/bootstrap/workshop-and-image-build/update_yaml.py:76-90 | the network patch writes only a ResourceGraphDefinition and fails with `KindMismatch` on a mapping of any other kind |
| NetworkPatch.RuleEffect | kro-and-ack/bootstrap/workshop-and-image-build/update_yaml.py:84-86 | after the innermost loop every IP range of the rule has `cidrIP` equal to the CIDR, and the rule differs from the original only in those values |
| NetworkPatch.SecurityGroupShape | kro-and-ack/bootstrap/workshop-and-image-build/update_yaml.py:82-86 | the security group's spec gets `vpcID`, and a non-empty `ingressRules` list is replaced by the rules patched one by one; otherwise only `vpcID` changes |
| NetworkPatch.SecurityGroupFrame | kro-and-ack/bootstrap/workshop-and-image-build/update_yaml.py:82-86 | outside `vpcID` and `ingressRules` the security group's spec is unchanged |
| NetworkPatch.SecurityGroupCidr | kro-and-ack/bootstrap/workshop-and-image-build/update_yaml.py:84-86 | every IP range of every ingress rule of the patched security group carries the CIDR |
| NetworkPatch.SecurityGroupAgrees | kro-and-ack/bootstrap/workshop-and-image-build/update_yaml.py:82-86 | the patched security-group spec differs from the original only in `vpcID` and in the ranges' `cidrIP` |
| NetworkPatch.SecurityGroupEffect | kro-and-ack/bootstrap/workshop-and-image-build/update_yaml.py:82-86 | the patched security group has the VPC id and the CIDR on every range, and nothing else in its spec changed |
| NetworkPatch.ResourceEffectHolds | kro-and-ack/bootstrap/workshop-and-image-build/update_yaml.py:80-88 | per resource: a security group gets the VPC id and CIDR and nothing else, a subnet group gets the subnet list in `subnetIDs` and nothing else, any other resource is unchanged |
| NetworkPatch.NetworkEffect | kro-and-ack/bootstrap/workshop-and-image-build/update_yaml.py:74-90 | the written network document differs from the loaded one only in its resource list, which keeps its length, each resource changed as stated per resource |
| NetworkPatch.RangesFixed | kro-and-ack/bootstrap/workshop-and-image-build/update_yaml.py:85-86 | re-running the innermost loop on its output changes nothing |
| NetworkPatch.RuleFixed | kro-and-ack/bootstrap/workshop-and-image-build/update_yaml.py:84-86 | re-patching a patched rule changes nothing |
| NetworkPatch.RulesFixed | kro-and-ack/bootstrap/workshop-and-image-build/update_yaml.py:84-86 | re-running the rule loop on its output changes nothing |
| NetworkPatch.SecurityGroupFixed | kro-and-ack/bootstrap/workshop-and-image-build/update_yaml.py:82-86 | re-patching a patched security-group spec changes nothing |
| NetworkPatch.ResourceFixed | kro-and-ack/bootstrap/workshop-and-image-build/update_yaml.py:80-88 | re-patching a patched resource changes nothing |
| NetworkPatch.ResourcesFixed | kro-and-ack/bootstrap/workshop-and-image-build/update_yaml.py:80-88 | re-running the resource loop on its output changes nothing |
| NetworkPatch.NetworkIdempotent | kro-and-ack/bootstrap/workshop-and-image-build/update_yaml.py:74-90 | applying the network patch twice with the same facts gives the same document as applying it once |
| NetworkPatch.PatchRanges | kro-and-ack/bootstrap/workshop-and-image-build/update_yaml.py:85-86 | the `for ipr in ...` loop computes `RangesPatched`, stopping at the first range that is not a dict |
| NetworkPatch.PatchRule | kro-and-ack/bootstrap/workshop-and-image-build/update_yaml.py:85-86 | one pass of the rule loop's body computes `RulePatched` |
| NetworkPatch.PatchRules | kro-and-ack/bootstrap/workshop-and-image-build/update_yaml.py:84-86 | the `for rule in ...` loop computes `RulesPatched`, stopping at the first failing rule |
| NetworkPatch.PatchResource | kro-and-ack/bootstrap/workshop-and-image-build/update_yaml.py:81-88 | one pass of the resource loop's body computes `ResourcePatched` |
| NetworkPatch.PatchResources | kro-and-ack/bootstrap/workshop-and-image-build/update_yaml.py:80-88 | the `for r in resources` loop computes `ResourcesPatched` |
| NetworkPatch.Apply | kro-and-ack/bootstrap/workshop-and-image-build/update_yaml.py:76-90 | `update_network_yaml` from loaded document to written document computes `Patched`, with the effect and idempotence stated above |
| IdentityPatch.PolicyRoundTrip | kro-and-ack/bootstrap/workshop-and-image-build/update_yaml.py:109-118 | for a JSON codec that reads back what it dumps, the rewritten trust policy reads back as the original dict or as what the original string parsed to; a string that does not parse is kept verbatim |
| IdentityPatch.ResourcePatched | kro-and-ack/bootstrap/workshop-and-image-build/update_yaml.py:102-118 | the loop body sets `found` exactly when the resource is a pod identity association with a present, non-empty spec |
| IdentityPatch.ResourcesPatched | kro-and-ack/bootstrap/workshop-and-image-build/update_yaml.py:101-118 | the identity loop, when it succeeds, yields one resource per resource |
| IdentityPatch.Patched | kro-and-ack/bootstrap/workshop-and-image-build/update_yaml.py:96-122 | the identity patch writes only a ResourceGraphDefinition (another kind fails with `KindMismatch`) and changes nothing outside `spec.resources` |
| IdentityPatch.FoundIffQualifies | kro-and-ack/bootstrap/workshop-and-image-build/update_yaml.py:100-107 | the `found` flag ends true exactly when some resource is an association with a non-empty spec; a missing or empty spec does not count |
| IdentityPatch.ResourcesPointwise | kro-and-ack/bootstrap/workshop-and-image-build/update_yaml.py:101-118 | the identity loop, when it succeeds, treats each resource independently of the others |
| IdentityPatch.ResourceEffectHolds | kro-and-ack/bootstrap/workshop-and-image-build/update_yaml.py:102-118 | a qualifying association gets `clusterName` and nothing else; a `role` holding `assumeRolePolicyDocument` gets it as a block literal of the re-encoded JSON and nothing else; a role without it and every other resource are unchanged |
| IdentityPatch.IdentityEffect | kro-and-ack/bootstrap/workshop-and-image-build/update_yaml.py:100-122 | the identity document is written only when some association qualifies, each resource changed as stated per resource; a successful loop that finds none fails with `NotFound` |
| IdentityPatch.PatchResource | kro-and-ack/bootstrap/workshop-and-image-build/update_yaml.py:102-118 | one pass of the identity loop's body, including the dict/string/other branches of the policy rewrite, computes `ResourcePatched` |
| IdentityPatch.PatchResources | kro-and-ack/bootstrap/workshop-and-image-build/update_yaml.py:100-118 | the identity loop with its `found` flag computes `ResourcesPatched` |
| IdentityPatch.Apply | kro-and-ack/bootstrap/workshop-and-image-build/update_yaml.py:96-122 | `update_identity_yaml` from loaded document to written document computes `Patched` |
| StackPatch.RegionPatched | kro-and-ack/bootstrap/workshop-and-image-build/update_yaml.py:133-134 | the region step changes no key of `spec` other than `rds` |
| StackPatch.DbWebStackPatched | kro-and-ack/bootstrap/workshop-and-image-build/update_yaml.py:126-136 | the DbWebStack patch writes only a `DbWebStack` document and fails with `KindMismatch` on a mapping of any other kind |
| StackPatch.DbSpecEffect | kro-and-ack/bootstrap/workshop-and-image-build/update_yaml.py:130-134 | `spec.image` becomes `repo:tag`; `rds.awsRegion` is set exactly when a region is given and `rds` is a dict whose `enabled` is truthy, with nothing else in `spec` or `rds` changed; the edit fails exactly when a region is given and `rds` is present but not a dict |
| StackPatch.DbWebStackEffect | kro-and-ack/bootstrap/workshop-and-image-build/update_yaml.py:128-134 | on a DbWebStack the patch succeeds exactly when `spec` is a dict whose edit succeeds, and then changes only `spec` |
| StackPatch.RegionIdempotent | kro-and-ack/bootstrap/workshop-and-image-build/update_yaml.py:133-134 | the region step on its own output changes nothing |
| StackPatch.DbSpecIdempotent | kro-and-ack/bootstrap/workshop-and-image-build/update_yaml.py:130-134 | the `spec` edit on its own output changes nothing |
| StackPatch.DbWebStackIdempotent | kro-and-ack/bootstrap/workshop-and-image-build/update_yaml.py:128-134 | applying the DbWebStack patch twice gives the same document as once |
| StackPatch.WebStackPatched | kro-and-ack/bootstrap/workshop-and-image-build/update_yaml.py:142-152 | the WebStack patch writes only a `WebStack` document and fails with `KindMismatch` on a mapping of any other kind |
| StackPatch.WebStackEffect | kro-and-ack/bootstrap/workshop-and-image-build/update_yaml.py:144-150 | on a WebStack the patch succeeds exactly when `spec` is a dict; `spec.image` becomes `repo:tag`, `clusterName` is set exactly when a cluster is given, and nothing else in the document changes |
| StackPatch.WebStackIdempotent | kro-and-ack/bootstrap/workshop-and-image-build/update_yaml.py:144-150 | applying the WebStack patch twice gives the same document as once |
| IngressPatch.ResourcePatched | kro-and-ack/bootstrap/workshop-and-image-build/update_yaml.py:161-167 | the loop body sets `updated` exactly when the resource is an `ingress` whose spec is not `None` (an empty dict counts) |
| IngressPatch.ResourcesPatched | kro-and-ack/bootstrap/workshop-and-image-build/update_yaml.py:161-167 | the ingress loop, when it succeeds, yields one resource per resource |
| IngressPatch.Patched | kro-and-ack/bootstrap/workshop-and-image-build/update_yaml.py:156-171 | the ingress patch writes only a ResourceGraphDefinition (another kind fails with `KindMismatch`) and changes nothing outside `spec.resources` |
| IngressPatch.UpdatedIffSome | kro-and-ack/bootstrap/workshop-and-image-build/update_yaml.py:160-167 | the `updated` flag ends true exactly when some resource is an `ingress` with a spec |
| IngressPatch.ResourcesPointwise | kro-and-ack/bootstrap/workshop-and-image-build/update_yaml.py:161-167 | the ingress loop, when it succeeds, treats each resource independently of the others |
| IngressPatch.ResourceEffectHolds | kro-and-ack/bootstrap/workshop-and-image-build/update_yaml.py:162-167 | an `ingress` with a spec gets `ingressClassName` and nothing else; every other resource is unchanged |
| IngressPatch.IngressEffect | kro-and-ack/bootstrap/workshop-and-image-build/update_yaml.py:160-171 | the WebApp document is written only when some ingress was updated, each resource changed as stated per resource; a successful loop that updates none fails with `NotFound` |
| IngressPatch.ResourceFixed | kro-and-ack/bootstrap/workshop-and-image-build/update_yaml.py:162-167 | the loop body on its own output changes nothing and reports the same flag |
| IngressPatch.ResourcesFixed | kro-and-ack/bootstrap/workshop-and-image-build/update_yaml.py:161-167 | the ingress loop on its own output changes nothing and reports the same flag |
| IngressPatch.IngressIdempotent | kro-and-ack/bootstrap/workshop-and-image-build/update_yaml.py:158-169 | applying the ingress patch twice gives the same document as once |
| IngressPatch.PatchResource | kro-and-ack/bootstrap/workshop-and-image-build/update_yaml.py:162-167 | one pass of the ingress loop's body computes `ResourcePatched` |
| IngressPatch.PatchResources | kro-and-ack/bootstrap/workshop-and-image-build/update_yaml.py:160-167 | the ingress loop with its `updated` flag computes `ResourcesPatched` |
| IngressPatch.Apply | kro-and-ack/bootstrap/workshop-and-image-build/update_yaml.py:156-171 | `update_webapp_ingress_yaml` from loaded document to written document computes `Patched` |
| Pipeline.FirstMissingPath | kro-and-ack/bootstrap/workshop-and-image-build/update_yaml.py:206-208 | the existence check passes exactly when every path exists, and otherwise reports the first missing path in argument order |
| Pipeline.StepsKeepPaths | kro-and-ack/bootstrap/workshop-and-image-build/update_yaml.py:219-223 | the updates only rewrite existing documents: the set of files never changes |
| Pipeline.NothingWrittenBeforeDiscovery | kro-and-ack/bootstrap/workshop-and-image-build/update_yaml.py:206-217 | a missing file, a missing repository URI or a failed discovery (too few private subnets, say) ends the run with that failure and every document as it was |
| Pipeline.FirstFailing | kro-and-ack/bootstrap/workshop-and-image-build/update_yaml.py:219-227 | the position it names, when inside the order, is a patcher that fails on its document |
| Pipeline.FirstFailingFrame | kro-and-ack/bootstrap/workshop-and-image-build/update_yaml.py:219-223 | writing one document does not change what a patcher of a different document sees |
| Pipeline.FailFastStops | kro-and-ack/bootstrap/workshop-and-image-build/update_yaml.py:219-227 | for distinct documents the run completes exactly when no patcher fails, and otherwise reports the first failing patcher's error |
| Pipeline.FailFastFrame | kro-and-ack/bootstrap/workshop-and-image-build/update_yaml.py:219-227 | for distinct documents no document at or after the first failing patcher is touched |
| Pipeline.FailFastWritten | kro-and-ack/bootstrap/workshop-and-image-build/update_yaml.py:219-223 | for distinct documents every patcher before the first failing one has written its patched document, and it stays written |
| Pipeline.FailFast | kro-and-ack/bootstrap/workshop-and-image-build/update_yaml.py:219-227 | fail-fast without rollback, for distinct documents: the run completes exactly when no patcher fails, otherwise it reports the first failing patcher's error; every patcher before that one has written its patched document, and every other document is as it was |
| Pipeline.Completed | kro-and-ack/bootstrap/workshop-and-image-build/update_yaml.py:213-225 | a completed run with distinct documents had a repository URI and successful discovery, and leaves each of the five documents holding its patcher's output |
| Pipeline.Workspace.FirstMissing | kro-and-ack/bootstrap/workshop-and-image-build/update_yaml.py:206-208 | the existence loop returns `FirstMissingPath` |
| Pipeline.Workspace.Update | kro-and-ack/bootstrap/workshop-and-image-build/update_yaml.py:219-223 | one `update_*_yaml` call loads, patches and writes back its own document, and writes nothing when it fails |
| Pipeline.Workspace.UpdateAll | kro-and-ack/bootstrap/workshop-and-image-build/update_yaml.py:219-223 | the five calls in order, stopping at the first failure, leave the files as `Steps` says |
| Pipeline.Workspace.Run | kro-and-ack/bootstrap/workshop-and-image-build/update_yaml.py:206-227 | `main` after argument parsing leaves the files and reports the failure exactly as `Sync` says |
| Scenarios.RuleScenario | kro-and-ack/bootstrap/workshop-and-image-build/update_yaml.py:84-86 | a rule with one blank IP range gets the CIDR in that range |
| Scenarios.SecurityGroupSpecScenario | kro-and-ack/bootstrap/workshop-and-image-build/update_yaml.py:82-86 | a blank security-group spec gets the VPC id and the CIDR block |
| Scenarios.SecurityGroupScenario | kro-and-ack/bootstrap/workshop-and-image-build/update_yaml.py:81-86 | a blank `securityGroup` resource gets the VPC id and the CIDR block |
| Scenarios.SubnetGroupScenario | kro-and-ack/bootstrap/workshop-and-image-build/update_yaml.py:87-88 | a `subnetGroup` resource with an empty list gets the discovered subnet ids |
| Scenarios.NetworkResourcesScenario | kro-and-ack/bootstrap/workshop-and-image-build/update_yaml.py:80-88 | the loop over a security group and a subnet group patches both |
| Scenarios.NetworkScenario | kro-and-ack/bootstrap/workshop-and-image-build/update_yaml.py:74-90 | the blank network template comes out with the VPC id, CIDR block and subnet ids in place of the blanks, and otherwise unchanged |
| Scenarios.DbSpecScenario | kro-and-ack/bootstrap/workshop-and-image-build/update_yaml.py:130-134 | an enabled database's `spec` gets the image and the region |
| Scenarios.DbWebStackScenario | kro-and-ack/bootstrap/workshop-and-image-build/update_yaml.py:124-137 | a DbWebStack instance with an enabled database points at `<repository>:<tag>` and names the region |

## Left out

- YAML and JSON text are not modelled. `yaml.safe_load`, `yaml.dump` and the `CustomDumper` indentation and representers (update_yaml.py:21-27) are library serialisation. Loading is a file that is either `Parsed` or `Unparsable`. Dumping is `Written`: the document read back without its block-literal hints.
- JSON `dumps`/`loads` and Python `str` are parameters (`IdentityPatch.Codecs`). `IdentityPatch.PolicyRoundTrip` assumes `loads` reads back what `dumps` wrote.
- The boto3 clients and the region they are created in are not modelled. Each answer of `describe_cluster`, `describe_vpcs` and `describe_subnets` is an input. A call that raises is `None` and fails the run with `CloudCallFailed`.
- Every listed subnet is assumed to carry a `SubnetId`. A private record without one would raise KeyError in the filter (a public one is skipped before its id is read), and the model has no such record.
- The cluster response's `cluster` and `resourcesVpcConfig` dicts are flattened to a VPC id and a subnet list. Responses where those are not dicts are not modelled.
- Argument parsing, its defaults (`kro`, `rds-latest`, `web-latest`, `alb`) and the `ECR_IMAGE_URI` lookup are not modelled; `Pipeline.Args` holds the parsed values. Logging, `print` and `sys.exit` are not modelled either; every way the script exits with status 1 is a `Failure`.
- Writing a file cannot fail in the model. A path that exists but cannot be opened and a file whose text does not parse are one case (`Unparsable`), and both fail with `LoadFailed`.
- YAML anchors and aliases, where one node is shared by two places of the tree, are not modelled: the tree is a value, so an in-place edit through one alias does not show at the other.
- Mapping keys are strings and numbers are integers. Non-string keys and floating-point scalars are not modelled.
- IdentityPatch.ResourcePatched: YAML timestamp, binary and set scalars (for example an unquoted `Version: 2012-10-17`) are not modelled, and `dumps` never fails. So the `TypeError` that `json.dumps` raises on such a value in a mapping policy (update_yaml.py:110-111, outside the `try`) is lost. The script then exits 1 after the network document is already written, while the model returns `Ok`.
- Pipeline.FailFast, Pipeline.Completed: stated for five different paths only. When two arguments name the same file, a later patcher edits an earlier one's output; `Steps` models that case but no lemma describes it.
- The identity patch has no idempotence lemma. Re-encoding an already re-encoded policy depends on the JSON codec's formatting, which is a parameter.
- StackPatch.DbSpecEffect: `rds.enabled` is read with Python truthiness, as the code does (`.get("enabled", False)` in a condition), not compared with `true`.
- `application/rds-demo-app/app.py` is not part of this model: it is a web service with database connections and no sync logic.
