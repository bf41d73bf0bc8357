/**
 * `update_webapp_ingress_yaml`: on a ResourceGraphDefinition, set the
 * ingress class on every `ingress` resource that has a spec. The run fails
 * when no ingress resource was updated.
 */
module IngressPatch {
  import opened Results
  import opened Tree
  import opened Documents

  const IngressId: string := "ingress"

  /** A resource the loop updates: an `ingress` whose `template.spec` is not
      `None` (an empty dict counts). */
  ghost predicate Updates(r: Node)
  {
    r.Map? && HasText(r.entries, "id", IngressId) &&
    OptionalTemplateSpec(r.entries).Ok? && OptionalTemplateSpec(r.entries).value.Some? &&
    !OptionalTemplateSpec(r.entries).value.value.Null?
  }

  /*** Specification: what the loop computes ***/

  /** One pass of the loop body: the resource afterwards, and whether it set
      `updated`. A spec that is neither `None` nor a dict cannot take the
      assignment and raises. */
  function ResourcePatched(r: Node, ingressClass: string): (res: Result<(Node, bool)>)
    ensures res.Ok? ==> r.Map? && res.value.0.Map?
    ensures res.Ok? ==> (res.value.1 <==> Updates(r))
  {
    if !r.Map? then Err(Malformed)
    else if !HasText(r.entries, "id", IngressId) then Ok((r, false))
    else
      match OptionalTemplateSpec(r.entries)
      case Err(e) => Err(e)
      case Ok(None) => Ok((r, false))
      case Ok(Some(Null)) => Ok((r, false))
      case Ok(Some(Map(spec))) =>
        Ok((Map(WithTemplateSpec(r.entries, Assign(spec, "ingressClassName", Str(ingressClass)))), true))
      case Ok(Some(_)) => Err(Malformed)
  }

  /** The loop over `spec.resources`, with the `updated` flag. */
  function ResourcesPatched(rs: seq<Node>, ingressClass: string): (r: Result<(seq<Node>, bool)>)
    ensures r.Ok? ==> |r.value.0| == |rs|
  {
    if rs == [] then Ok(([], false))
    else
      match ResourcePatched(rs[0], ingressClass)
      case Err(e) => Err(e)
      case Ok((x, b)) => Flagged([x], b, ResourcesPatched(rs[1..], ingressClass))
  }

  /** What one more pass of the loop body does to the loop's result. */
  lemma ResourcesLoopStep(xs: seq<Node>, i: nat, done: seq<Node>, updated: bool, ingressClass: string)
    requires i < |xs|
    ensures Flagged(done, updated, ResourcesPatched(xs[i..], ingressClass)) ==
      match ResourcePatched(xs[i], ingressClass)
      case Err(e) => Err(e)
      case Ok((x, b)) => Flagged(done + [x], updated || b, ResourcesPatched(xs[i + 1..], ingressClass))
  {
    assert xs[i..][1..] == xs[i + 1..];
    if ResourcePatched(xs[i], ingressClass).Ok? {
      var (x, b) := ResourcePatched(xs[i], ingressClass).value;
      FlaggedStep(done, updated, x, b, ResourcesPatched(xs[i + 1..], ingressClass));
    }
  }

  /** The document `update_webapp_ingress_yaml` writes back, or why it fails instead. */
  function Patched(doc: Node, ingressClass: string): (r: Result<Node>)
    ensures r.Ok? ==> KindOf(doc) == Some(ResourceGraphDefinition)
    ensures doc.Map? && KindOf(doc) != Some(ResourceGraphDefinition) ==> r == Err(KindMismatch(ResourceGraphDefinition))
    ensures r.Ok? ==> r.value.Map? && SameOutsideResources(doc.entries, r.value.entries)
  {
    match CheckKind(doc, ResourceGraphDefinition)
    case Err(e) => Err(e)
    case Ok(es) =>
      match ResourceList(es)
      case Err(e) => Err(e)
      case Ok(rs) =>
        match ResourcesPatched(rs, ingressClass)
        case Err(e) => Err(e)
        case Ok((rs', updated)) =>
          if !updated then Err(NotFound(IngressId)) else Ok(Map(WithResources(es, rs')))
  }

  /*** Properties of the ingress patch ***/

  /** The loop's `updated` flag is set exactly when some resource is an
      ingress with a spec. */
  lemma {:induction false} UpdatedIffSome(rs: seq<Node>, ingressClass: string)
    requires ResourcesPatched(rs, ingressClass).Ok?
    ensures ResourcesPatched(rs, ingressClass).value.1 <==> exists i :: 0 <= i < |rs| && Updates(rs[i])
  {
    if rs != [] {
      UpdatedIffSome(rs[1..], ingressClass);
      assert forall i :: 1 <= i < |rs| ==> rs[i] == rs[1..][i - 1];
      if exists i :: 0 <= i < |rs| && Updates(rs[i]) {
        var i :| 0 <= i < |rs| && Updates(rs[i]);
        if i > 0 {
          assert Updates(rs[1..][i - 1]);
        }
      }
    }
  }

  /** The loop, when it succeeds, treats each resource on its own. */
  lemma {:induction false} ResourcesPointwise(rs: seq<Node>, ingressClass: string)
    requires ResourcesPatched(rs, ingressClass).Ok?
    ensures var out := ResourcesPatched(rs, ingressClass).value.0;
      |out| == |rs| && forall i :: 0 <= i < |rs| ==>
        ResourcePatched(rs[i], ingressClass).Ok? && ResourcePatched(rs[i], ingressClass).value.0 == out[i]
  {
    if rs != [] {
      ResourcesPointwise(rs[1..], ingressClass);
      assert forall i :: 1 <= i < |rs| ==> rs[i] == rs[1..][i - 1];
    }
  }

  /** What the loop body does to one resource: an ingress with a spec gets
      `ingressClassName` and nothing else; every other resource is left
      exactly as it was. */
  ghost predicate ResourceEffect(r: Node, r': Node, ingressClass: string)
  {
    r.Map? && r'.Map? &&
    if Updates(r) then
      SameOutsideSpec(r.entries, r'.entries) &&
      TemplateSpec(r.entries).Ok? && TemplateSpec(r'.entries).Ok? &&
      var s, s' := TemplateSpec(r.entries).value, TemplateSpec(r'.entries).value;
      Lookup(s', "ingressClassName") == Some(Str(ingressClass)) &&
      Remove(s', "ingressClassName") == Remove(s, "ingressClassName")
    else
      r' == r
  }

  /** The loop body establishes `ResourceEffect`. */
  lemma ResourceEffectHolds(r: Node, ingressClass: string)
    requires ResourcePatched(r, ingressClass).Ok?
    ensures ResourceEffect(r, ResourcePatched(r, ingressClass).value.0, ingressClass)
  {
  }

  /** `update_webapp_ingress_yaml` writes only when some resource is an
      ingress with a spec; it then changes only the resource list, each
      resource as `ResourceEffect` says. When the loop updates nothing the
      patch fails with `NotFound`. */
  lemma IngressEffect(doc: Node, ingressClass: string)
    requires doc.Map? && ResourceList(doc.entries).Ok?
    ensures var rs := ResourceList(doc.entries).value;
      var r := Patched(doc, ingressClass);
      r.Ok? ==> (exists i :: 0 <= i < |rs| && Updates(rs[i])) &&
                ResourceList(r.value.entries).Ok? &&
                var rs' := ResourceList(r.value.entries).value;
                |rs'| == |rs| && forall i :: 0 <= i < |rs| ==> ResourceEffect(rs[i], rs'[i], ingressClass)
    ensures var rs := ResourceList(doc.entries).value;
      (KindOf(doc) == Some(ResourceGraphDefinition) && ResourcesPatched(rs, ingressClass).Ok? &&
       forall i :: 0 <= i < |rs| ==> !Updates(rs[i])) ==>
      Patched(doc, ingressClass) == Err(NotFound(IngressId))
  {
    var rs := ResourceList(doc.entries).value;
    if ResourcesPatched(rs, ingressClass).Ok? {
      UpdatedIffSome(rs, ingressClass);
      ResourcesPointwise(rs, ingressClass);
      forall i | 0 <= i < |rs|
        ensures ResourceEffect(rs[i], ResourcesPatched(rs, ingressClass).value.0[i], ingressClass)
      {
        ResourceEffectHolds(rs[i], ingressClass);
      }
    }
  }

  /** The loop body on its own output changes nothing and reports the same flag. */
  lemma ResourceFixed(r: Node, ingressClass: string)
    requires ResourcePatched(r, ingressClass).Ok?
    ensures ResourcePatched(ResourcePatched(r, ingressClass).value.0, ingressClass) == ResourcePatched(r, ingressClass)
  {
    if Updates(r) {
      var r' := ResourcePatched(r, ingressClass).value.0;
      var spec := TemplateSpec(r.entries).value;
      var spec' := Assign(spec, "ingressClassName", Str(ingressClass));
      assert Lookup(r'.entries, "id") == Lookup(r.entries, "id");
      assert OptionalTemplateSpec(r'.entries) == Ok(Some(Map(spec')));
      AssignCurrent(spec', "ingressClassName", Str(ingressClass));
      WithTemplateSpecCurrent(r'.entries, spec');
    }
  }

  /** The loop on its own output changes nothing and reports the same flag. */
  lemma {:induction false} ResourcesFixed(rs: seq<Node>, ingressClass: string)
    requires ResourcesPatched(rs, ingressClass).Ok?
    ensures ResourcesPatched(ResourcesPatched(rs, ingressClass).value.0, ingressClass) == ResourcesPatched(rs, ingressClass)
  {
    if rs != [] {
      ResourcesFixed(rs[1..], ingressClass);
      ResourceFixed(rs[0], ingressClass);
      var out := ResourcesPatched(rs, ingressClass).value.0;
      assert out[0] == ResourcePatched(rs[0], ingressClass).value.0;
      assert out[1..] == ResourcesPatched(rs[1..], ingressClass).value.0;
    }
  }

  /** Running the ingress patch on its own output gives the same document. */
  lemma IngressIdempotent(doc: Node, ingressClass: string)
    requires Patched(doc, ingressClass).Ok?
    ensures Patched(Patched(doc, ingressClass).value, ingressClass) == Patched(doc, ingressClass)
  {
    var es := doc.entries;
    var rs := ResourceList(es).value;
    var rs' := ResourcesPatched(rs, ingressClass).value.0;
    var d := WithResources(es, rs');
    WithResourcesKind(es, rs');
    ResourcesFixed(rs, ingressClass);
    WithResourcesCurrent(d, rs');
  }

  /*** Implementation: the loop as the script runs it ***/

  /** The loop body for one resource: returns the resource and whether it set `updated`. */
  method PatchResource(r: Node, ingressClass: string) returns (res: Result<(Node, bool)>)
    ensures res == ResourcePatched(r, ingressClass)
  {
    if !r.Map? {
      return Err(Malformed);
    }
    if !HasText(r.entries, "id", IngressId) {
      return Ok((r, false));
    }
    var lookedUp := OptionalTemplateSpec(r.entries);
    if lookedUp.Err? {
      return Err(lookedUp.error);
    }
    var spec := lookedUp.value;
    if spec.None? || spec.value.Null? {
      return Ok((r, false));
    }
    if !spec.value.Map? {
      return Err(Malformed);
    }
    var spec' := Assign(spec.value.entries, "ingressClassName", Str(ingressClass));
    return Ok((Map(WithTemplateSpec(r.entries, spec')), true));
  }

  /** `for r in resources: ...` with the `updated` flag. */
  method PatchResources(rs: seq<Node>, ingressClass: string) returns (r: Result<(seq<Node>, bool)>)
    ensures r == ResourcesPatched(rs, ingressClass)
  {
    var done: seq<Node> := [];
    var updated := false;
    var i := 0;
    assert rs[0..] == rs;
    FlaggedNothing(ResourcesPatched(rs, ingressClass));
    while i < |rs|
      invariant 0 <= i <= |rs|
      invariant ResourcesPatched(rs, ingressClass) == Flagged(done, updated, ResourcesPatched(rs[i..], ingressClass))
    {
      var res := PatchResource(rs[i], ingressClass);
      ResourcesLoopStep(rs, i, done, updated, ingressClass);
      if res.Err? {
        return Err(res.error);
      }
      done := done + [res.value.0];
      updated := updated || res.value.1;
      i := i + 1;
    }
    assert done + [] == done;
    return Ok((done, updated));
  }

  /** `update_webapp_ingress_yaml` from the loaded document to the document it writes. */
  method Apply(doc: Node, ingressClass: string) returns (r: Result<Node>)
    ensures r == Patched(doc, ingressClass)
  {
    var checked := CheckKind(doc, ResourceGraphDefinition);
    if checked.Err? {
      return Err(checked.error);
    }
    var listed := ResourceList(checked.value);
    if listed.Err? {
      return Err(listed.error);
    }
    var patched := PatchResources(listed.value, ingressClass);
    if patched.Err? {
      return Err(patched.error);
    }
    var (rs', updated) := patched.value;
    if !updated {
      return Err(NotFound(IngressId));
    }
    return Ok(Map(WithResources(checked.value, rs')));
  }
}
