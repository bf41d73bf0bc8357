/**
 * `update_identity_yaml`: on a ResourceGraphDefinition, give every pod
 * identity association the cluster name, and rewrite a `role` resource's
 * trust policy as indented JSON marked for block-literal output. The run
 * fails when no association with a non-empty spec exists.
 */
module IdentityPatch {
  import opened Results
  import opened Tree
  import opened Documents

  const AssociationId: string := "podidentityassociation"
  const RoleId: string := "role"
  const PolicyKey: string := "assumeRolePolicyDocument"

  /** The text conversions the role handling relies on, as parameters:
      `json.dumps(x, indent=2)`, `json.loads(s)` (`None` when it raises), and
      Python's `str(x)` for a value that is neither a dict nor a string. */
  datatype Codecs = Codecs(dumps: Node -> string, loads: string -> Option<Node>, show: Node -> string)

  /** The text the trust policy is rewritten to: a dict is dumped as JSON; a
      string is parsed and dumped again, or kept verbatim when it does not
      parse; anything else is not accepted by `json.loads`, whose error is
      caught, so the value itself is converted with `str`. */
  function Reencoded(orig: Node, c: Codecs): string
  {
    if orig.Map? then c.dumps(orig)
    else
      match Text(orig)
      case Some(s) =>
        (match c.loads(s)
         case Some(parsed) => c.dumps(parsed)
         case None => s)
      case None => c.show(orig)
  }

  /** JSON text reproduces the value it was dumped from. */
  ghost predicate Lawful(c: Codecs)
  {
    forall x :: c.loads(c.dumps(x)) == Some(Plain(x))
  }

  /** The rewritten trust policy, read back as JSON, is the policy the
      document held: the dict itself, or what the string parsed to. A string
      that does not parse is kept as it was. */
  lemma PolicyRoundTrip(orig: Node, c: Codecs)
    requires Lawful(c)
    ensures orig.Map? ==> c.loads(Reencoded(orig, c)) == Some(Plain(orig))
    ensures Text(orig).Some? && c.loads(Text(orig).value).Some? ==>
      c.loads(Reencoded(orig, c)) == Some(Plain(c.loads(Text(orig).value).value))
    ensures Text(orig).Some? && c.loads(Text(orig).value).None? ==> Reencoded(orig, c) == Text(orig).value
  {
  }

  /** A resource the loop counts as found: a pod identity association whose
      `template.spec` is present and non-empty. */
  ghost predicate Qualifies(r: Node)
  {
    r.Map? && HasText(r.entries, "id", AssociationId) &&
    OptionalTemplateSpec(r.entries).Ok? && OptionalTemplateSpec(r.entries).value.Some? &&
    Truthy(OptionalTemplateSpec(r.entries).value.value)
  }

  /*** Specification: what the loop computes ***/

  /** One pass of the loop body: the resource afterwards, and whether it set `found`. */
  function ResourcePatched(r: Node, cluster: string, c: Codecs): (res: Result<(Node, bool)>)
    ensures res.Ok? ==> r.Map? && res.value.0.Map?
    ensures res.Ok? ==> (res.value.1 <==> Qualifies(r))
  {
    if !r.Map? then Err(Malformed)
    else
      match OptionalTemplateSpec(r.entries)
      case Err(e) => Err(e)
      case Ok(spec) =>
        if spec.None? || !Truthy(spec.value) then Ok((r, false))
        else if HasText(r.entries, "id", AssociationId) then
          if spec.value.Map? then
            Ok((Map(WithTemplateSpec(r.entries, Assign(spec.value.entries, "clusterName", Str(cluster)))), true))
          else Err(Malformed)
        else if HasText(r.entries, "id", RoleId) then
          match Contains(spec.value, PolicyKey)
          case Err(e) => Err(e)
          case Ok(present) =>
            if !present then Ok((r, false))
            else if spec.value.Map? then
              var orig := Lookup(spec.value.entries, PolicyKey).value;
              Ok((Map(WithTemplateSpec(r.entries, Assign(spec.value.entries, PolicyKey, Literal(Reencoded(orig, c))))), false))
            else Err(Malformed)
        else Ok((r, false))
  }

  /** The loop over `spec.resources`, with the `found` flag. */
  function ResourcesPatched(rs: seq<Node>, cluster: string, c: Codecs): (r: Result<(seq<Node>, bool)>)
    ensures r.Ok? ==> |r.value.0| == |rs|
  {
    if rs == [] then Ok(([], false))
    else
      match ResourcePatched(rs[0], cluster, c)
      case Err(e) => Err(e)
      case Ok((x, b)) => Flagged([x], b, ResourcesPatched(rs[1..], cluster, c))
  }

  /** What one more pass of the loop body does to the loop's result. */
  lemma ResourcesLoopStep(xs: seq<Node>, i: nat, done: seq<Node>, found: bool, cluster: string, c: Codecs)
    requires i < |xs|
    ensures Flagged(done, found, ResourcesPatched(xs[i..], cluster, c)) ==
      match ResourcePatched(xs[i], cluster, c)
      case Err(e) => Err(e)
      case Ok((x, b)) => Flagged(done + [x], found || b, ResourcesPatched(xs[i + 1..], cluster, c))
  {
    assert xs[i..][1..] == xs[i + 1..];
    if ResourcePatched(xs[i], cluster, c).Ok? {
      var (x, b) := ResourcePatched(xs[i], cluster, c).value;
      FlaggedStep(done, found, x, b, ResourcesPatched(xs[i + 1..], cluster, c));
    }
  }

  /** The document `update_identity_yaml` writes back, or why it fails instead. */
  function Patched(doc: Node, cluster: string, c: Codecs): (r: Result<Node>)
    ensures r.Ok? ==> KindOf(doc) == Some(ResourceGraphDefinition)
    ensures doc.Map? && KindOf(doc) != Some(ResourceGraphDefinition) ==> r == Err(KindMismatch(ResourceGraphDefinition))
    ensures r.Ok? ==> r.value.Map? && SameOutsideResources(doc.entries, r.value.entries)
  {
    match CheckKind(doc, ResourceGraphDefinition)
    case Err(e) => Err(e)
    case Ok(es) =>
      match ResourceList(es)
      case Err(e) => Err(e)
      case Ok(rs) =>
        match ResourcesPatched(rs, cluster, c)
        case Err(e) => Err(e)
        case Ok((rs', found)) =>
          if !found then Err(NotFound(AssociationId)) else Ok(Map(WithResources(es, rs')))
  }

  /*** Properties of the identity patch ***/

  /** The loop's `found` flag is set exactly when some resource qualifies. */
  lemma {:induction false} FoundIffQualifies(rs: seq<Node>, cluster: string, c: Codecs)
    requires ResourcesPatched(rs, cluster, c).Ok?
    ensures ResourcesPatched(rs, cluster, c).value.1 <==> exists i :: 0 <= i < |rs| && Qualifies(rs[i])
  {
    if rs != [] {
      FoundIffQualifies(rs[1..], cluster, c);
      assert forall i :: 1 <= i < |rs| ==> rs[i] == rs[1..][i - 1];
      if exists i :: 0 <= i < |rs| && Qualifies(rs[i]) {
        var i :| 0 <= i < |rs| && Qualifies(rs[i]);
        if i > 0 {
          assert Qualifies(rs[1..][i - 1]);
        }
      }
    }
  }

  /** The loop, when it succeeds, treats each resource on its own. */
  lemma {:induction false} ResourcesPointwise(rs: seq<Node>, cluster: string, c: Codecs)
    requires ResourcesPatched(rs, cluster, c).Ok?
    ensures var out := ResourcesPatched(rs, cluster, c).value.0;
      |out| == |rs| && forall i :: 0 <= i < |rs| ==>
        ResourcePatched(rs[i], cluster, c).Ok? && ResourcePatched(rs[i], cluster, c).value.0 == out[i]
  {
    if rs != [] {
      ResourcesPointwise(rs[1..], cluster, c);
      assert forall i :: 1 <= i < |rs| ==> rs[i] == rs[1..][i - 1];
    }
  }

  /** What the loop body does to one resource: a qualifying association gets
      `clusterName` and nothing else; a `role` with a non-empty spec holding
      the trust policy gets it rewritten as a block literal and nothing else;
      every other resource is left exactly as it was. */
  ghost predicate ResourceEffect(r: Node, r': Node, cluster: string, c: Codecs)
  {
    r.Map? && r'.Map? &&
    if Qualifies(r) then
      SameOutsideSpec(r.entries, r'.entries) &&
      TemplateSpec(r.entries).Ok? && TemplateSpec(r'.entries).Ok? &&
      var s, s' := TemplateSpec(r.entries).value, TemplateSpec(r'.entries).value;
      Lookup(s', "clusterName") == Some(Str(cluster)) && Remove(s', "clusterName") == Remove(s, "clusterName")
    else if HasText(r.entries, "id", RoleId) && !HasText(r.entries, "id", AssociationId) &&
            TemplateSpec(r.entries).Ok? && TemplateSpec(r.entries).value != [] &&
            Lookup(TemplateSpec(r.entries).value, PolicyKey).Some? then
      SameOutsideSpec(r.entries, r'.entries) &&
      TemplateSpec(r'.entries).Ok? &&
      var s, s' := TemplateSpec(r.entries).value, TemplateSpec(r'.entries).value;
      Lookup(s', PolicyKey) == Some(Literal(Reencoded(Lookup(s, PolicyKey).value, c))) &&
      Remove(s', PolicyKey) == Remove(s, PolicyKey)
    else
      r' == r
  }

  /** The loop body establishes `ResourceEffect`. */
  lemma ResourceEffectHolds(r: Node, cluster: string, c: Codecs)
    requires ResourcePatched(r, cluster, c).Ok?
    ensures ResourceEffect(r, ResourcePatched(r, cluster, c).value.0, cluster, c)
  {
  }

  /** `update_identity_yaml` writes only when some resource qualifies; it then
      changes only the resource list, each resource as `ResourceEffect` says.
      A loop that finds no qualifying association fails with `NotFound`. */
  lemma IdentityEffect(doc: Node, cluster: string, c: Codecs)
    requires doc.Map? && ResourceList(doc.entries).Ok?
    ensures var rs := ResourceList(doc.entries).value;
      var r := Patched(doc, cluster, c);
      r.Ok? ==> (exists i :: 0 <= i < |rs| && Qualifies(rs[i])) &&
                ResourceList(r.value.entries).Ok? &&
                var rs' := ResourceList(r.value.entries).value;
                |rs'| == |rs| && forall i :: 0 <= i < |rs| ==> ResourceEffect(rs[i], rs'[i], cluster, c)
    ensures var rs := ResourceList(doc.entries).value;
      (KindOf(doc) == Some(ResourceGraphDefinition) && ResourcesPatched(rs, cluster, c).Ok? &&
       forall i :: 0 <= i < |rs| ==> !Qualifies(rs[i])) ==>
      Patched(doc, cluster, c) == Err(NotFound(AssociationId))
  {
    var rs := ResourceList(doc.entries).value;
    if ResourcesPatched(rs, cluster, c).Ok? {
      FoundIffQualifies(rs, cluster, c);
      ResourcesPointwise(rs, cluster, c);
      forall i | 0 <= i < |rs|
        ensures ResourceEffect(rs[i], ResourcesPatched(rs, cluster, c).value.0[i], cluster, c)
      {
        ResourceEffectHolds(rs[i], cluster, c);
      }
    }
  }

  /*** Implementation: the loop as the script runs it ***/

  /** The loop body for one resource: returns the resource and whether it set `found`. */
  method PatchResource(r: Node, cluster: string, c: Codecs) returns (res: Result<(Node, bool)>)
    ensures res == ResourcePatched(r, cluster, c)
  {
    if !r.Map? {
      return Err(Malformed);
    }
    var lookedUp := OptionalTemplateSpec(r.entries);
    if lookedUp.Err? {
      return Err(lookedUp.error);
    }
    var spec := lookedUp.value;
    if spec.None? || !Truthy(spec.value) {
      return Ok((r, false));
    }
    if HasText(r.entries, "id", AssociationId) {
      if !spec.value.Map? {
        return Err(Malformed);
      }
      var spec' := Assign(spec.value.entries, "clusterName", Str(cluster));
      return Ok((Map(WithTemplateSpec(r.entries, spec')), true));
    } else if HasText(r.entries, "id", RoleId) {
      var present := Contains(spec.value, PolicyKey);
      if present.Err? {
        return Err(present.error);
      }
      if !present.value {
        return Ok((r, false));
      }
      if !spec.value.Map? {
        return Err(Malformed);
      }
      var orig := Lookup(spec.value.entries, PolicyKey).value;
      var js: string;
      if orig.Map? {
        js := c.dumps(orig);
      } else if Text(orig).Some? {
        var parsed := c.loads(Text(orig).value);
        if parsed.Some? {
          js := c.dumps(parsed.value);
        } else {
          js := Text(orig).value;
        }
      } else {
        js := c.show(orig);
      }
      var spec' := Assign(spec.value.entries, PolicyKey, Literal(js));
      return Ok((Map(WithTemplateSpec(r.entries, spec')), false));
    }
    return Ok((r, false));
  }

  /** `for r in resources: ...` with the `found` flag. */
  method PatchResources(rs: seq<Node>, cluster: string, c: Codecs) returns (r: Result<(seq<Node>, bool)>)
    ensures r == ResourcesPatched(rs, cluster, c)
  {
    var done: seq<Node> := [];
    var found := false;
    var i := 0;
    assert rs[0..] == rs;
    FlaggedNothing(ResourcesPatched(rs, cluster, c));
    while i < |rs|
      invariant 0 <= i <= |rs|
      invariant ResourcesPatched(rs, cluster, c) == Flagged(done, found, ResourcesPatched(rs[i..], cluster, c))
    {
      var res := PatchResource(rs[i], cluster, c);
      ResourcesLoopStep(rs, i, done, found, cluster, c);
      if res.Err? {
        return Err(res.error);
      }
      done := done + [res.value.0];
      found := found || res.value.1;
      i := i + 1;
    }
    assert done + [] == done;
    return Ok((done, found));
  }

  /** `update_identity_yaml` from the loaded document to the document it writes. */
  method Apply(doc: Node, cluster: string, c: Codecs) returns (r: Result<Node>)
    ensures r == Patched(doc, cluster, c)
  {
    var checked := CheckKind(doc, ResourceGraphDefinition);
    if checked.Err? {
      return Err(checked.error);
    }
    var listed := ResourceList(checked.value);
    if listed.Err? {
      return Err(listed.error);
    }
    var patched := PatchResources(listed.value, cluster, c);
    if patched.Err? {
      return Err(patched.error);
    }
    var (rs', found) := patched.value;
    if !found {
      return Err(NotFound(AssociationId));
    }
    return Ok(Map(WithResources(checked.value, rs')));
  }
}
