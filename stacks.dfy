/**
 * `update_dbwebstack_yaml` and `update_webstack_yaml`: on a single stack
 * instance, point `spec.image` at the repository and tag, and fill in the
 * region of an enabled database or the cluster name when one is given.
 */
module StackPatch {
  import opened Results
  import opened Tree
  import opened Documents

  /** `f"{repo_uri}:{tag}"`. */
  function ImageRef(repo: string, tag: string): string
  {
    repo + ":" + tag
  }

  /** The `spec` mapping of a document, when there is one. */
  function SpecOf(d: Node): Option<seq<Entry>>
  {
    if d.Map? then
      match Lookup(d.entries, "spec")
      case Some(Map(spec)) => Some(spec)
      case _ => None
    else None
  }

  /** Whether the database block asks for its region: `rds.get("enabled", False)` is truthy. */
  predicate Enabled(rds: seq<Entry>)
  {
    match Lookup(rds, "enabled")
    case Some(v) => Truthy(v)
    case None => false
  }

  /*** DbWebStack ***/

  /** `spec` after the region step of `update_dbwebstack_yaml`: with a region
      given and `rds` present and enabled, `rds.awsRegion` is set. A given
      region with an `rds` that is not a dict raises. */
  function RegionPatched(spec: seq<Entry>, region: string): (r: Result<seq<Entry>>)
    ensures r.Ok? ==> forall k | k != "rds" :: Lookup(r.value, k) == Lookup(spec, k)
  {
    if region == [] then Ok(spec)
    else
      match Lookup(spec, "rds")
      case None => Ok(spec)
      case Some(Map(rds)) =>
        if Enabled(rds) then Ok(Assign(spec, "rds", Map(Assign(rds, "awsRegion", Str(region)))))
        else Ok(spec)
      case Some(_) => Err(Malformed)
  }

  /** The `spec` dict after `update_dbwebstack_yaml` edited it: the image,
      then the region step. */
  function DbSpecPatched(spec: seq<Entry>, image: string, region: string): Result<seq<Entry>>
  {
    RegionPatched(Assign(spec, "image", Str(image)), region)
  }

  /** The document `update_dbwebstack_yaml` writes back, or why it fails.
      `doc["spec"]` must be a dict. */
  function DbWebStackPatched(doc: Node, repo: string, tag: string, region: string): (r: Result<Node>)
    ensures r.Ok? ==> KindOf(doc) == Some(DbWebStackKind)
    ensures doc.Map? && KindOf(doc) != Some(DbWebStackKind) ==> r == Err(KindMismatch(DbWebStackKind))
  {
    match CheckKind(doc, DbWebStackKind)
    case Err(e) => Err(e)
    case Ok(es) =>
      match Lookup(es, "spec")
      case Some(Map(spec)) =>
        (match DbSpecPatched(spec, ImageRef(repo, tag), region)
         case Ok(spec') => Ok(Map(Assign(es, "spec", Map(spec'))))
         case Err(e) => Err(e))
      case _ => Err(Malformed)
  }

  /** When the region is written: a region is given and `spec.rds` is a dict that is enabled. */
  ghost predicate RegionWanted(spec: seq<Entry>, region: string)
  {
    region != [] && Lookup(spec, "rds").Some? && Lookup(spec, "rds").value.Map? &&
    Enabled(Lookup(spec, "rds").value.entries)
  }

  /** The `spec` edit fails exactly when a region is given and `rds` is present
      but not a dict. Otherwise `spec` gets the image; `rds` gets `awsRegion`
      when `RegionWanted`, and nothing else in `spec` or `rds` changes. */
  lemma DbSpecEffect(spec: seq<Entry>, image: string, region: string)
    ensures DbSpecPatched(spec, image, region).Ok? <==>
      region == [] || Lookup(spec, "rds").None? || Lookup(spec, "rds").value.Map?
    ensures var r := DbSpecPatched(spec, image, region);
      r.Ok? ==>
        var spec' := r.value;
        Lookup(spec', "image") == Some(Str(image)) &&
        if RegionWanted(spec, region) then
          var rds := Lookup(spec, "rds").value.entries;
          Remove(Remove(spec', "image"), "rds") == Remove(Remove(spec, "image"), "rds") &&
          Lookup(spec', "rds").Some? && Lookup(spec', "rds").value.Map? &&
          Lookup(Lookup(spec', "rds").value.entries, "awsRegion") == Some(Str(region)) &&
          Remove(Lookup(spec', "rds").value.entries, "awsRegion") == Remove(rds, "awsRegion")
        else
          Remove(spec', "image") == Remove(spec, "image")
  {
    var spec' := Assign(spec, "image", Str(image));
    AssignOther(spec, "image", Str(image), "rds");
    if RegionWanted(spec, region) {
      var rds := Lookup(spec, "rds").value.entries;
      var spec'' := Assign(spec', "rds", Map(Assign(rds, "awsRegion", Str(region))));
      AssignOther(spec', "rds", Map(Assign(rds, "awsRegion", Str(region))), "image");
      RemoveCommutes(spec'', "image", "rds");
      RemoveCommutes(spec', "image", "rds");
      RemoveCommutes(spec, "image", "rds");
    }
  }

  /** On a DbWebStack document the patch fails exactly when `spec` is not a
      dict or its edit fails; when it succeeds, only `spec` changes, as
      `DbSpecEffect` says. */
  lemma DbWebStackEffect(doc: Node, repo: string, tag: string, region: string)
    requires KindOf(doc) == Some(DbWebStackKind)
    ensures DbWebStackPatched(doc, repo, tag, region).Ok? <==>
      SpecOf(doc).Some? && DbSpecPatched(SpecOf(doc).value, ImageRef(repo, tag), region).Ok?
    ensures var r := DbWebStackPatched(doc, repo, tag, region);
      r.Ok? ==>
        Remove(r.value.entries, "spec") == Remove(doc.entries, "spec") &&
        SpecOf(r.value) == Some(DbSpecPatched(SpecOf(doc).value, ImageRef(repo, tag), region).value)
  {
  }

  /** The region step on its own output changes nothing more. */
  lemma RegionIdempotent(spec: seq<Entry>, region: string)
    requires RegionPatched(spec, region).Ok?
    ensures RegionPatched(RegionPatched(spec, region).value, region) == RegionPatched(spec, region)
  {
    if RegionWanted(spec, region) {
      var rds := Lookup(spec, "rds").value.entries;
      var rds' := Assign(rds, "awsRegion", Str(region));
      var spec' := Assign(spec, "rds", Map(rds'));
      AssignOther(rds, "awsRegion", Str(region), "enabled");
      AssignCurrent(rds', "awsRegion", Str(region));
      AssignCurrent(spec', "rds", Map(rds'));
    }
  }

  /** Editing an already edited `spec` again changes nothing more. */
  lemma DbSpecIdempotent(spec: seq<Entry>, image: string, region: string)
    requires DbSpecPatched(spec, image, region).Ok?
    ensures DbSpecPatched(DbSpecPatched(spec, image, region).value, image, region)
         == DbSpecPatched(spec, image, region)
  {
    var spec1 := Assign(spec, "image", Str(image));
    var spec2 := RegionPatched(spec1, region).value;
    assert Lookup(spec2, "image") == Some(Str(image));
    AssignCurrent(spec2, "image", Str(image));
    RegionIdempotent(spec1, region);
  }

  /** Running the DbWebStack patch on its own output changes nothing more. */
  lemma DbWebStackIdempotent(doc: Node, repo: string, tag: string, region: string)
    requires DbWebStackPatched(doc, repo, tag, region).Ok?
    ensures DbWebStackPatched(DbWebStackPatched(doc, repo, tag, region).value, repo, tag, region)
         == DbWebStackPatched(doc, repo, tag, region)
  {
    var es := doc.entries;
    var spec := SpecOf(doc).value;
    var spec' := DbSpecPatched(spec, ImageRef(repo, tag), region).value;
    DbSpecIdempotent(spec, ImageRef(repo, tag), region);
    var es' := Assign(es, "spec", Map(spec'));
    AssignOther(es, "spec", Map(spec'), "kind");
    AssignTwice(es, "spec", Map(spec'), Map(spec'));
  }

  /*** WebStack ***/

  /** The document `update_webstack_yaml` writes back, or why it fails.
      `doc["spec"]` must be a dict. */
  function WebStackPatched(doc: Node, repo: string, tag: string, cluster: string): (r: Result<Node>)
    ensures r.Ok? ==> KindOf(doc) == Some(WebStackKind)
    ensures doc.Map? && KindOf(doc) != Some(WebStackKind) ==> r == Err(KindMismatch(WebStackKind))
  {
    match CheckKind(doc, WebStackKind)
    case Err(e) => Err(e)
    case Ok(es) =>
      match Lookup(es, "spec")
      case Some(Map(spec)) =>
        var spec' := Assign(spec, "image", Str(ImageRef(repo, tag)));
        if cluster == [] then Ok(Map(Assign(es, "spec", Map(spec'))))
        else Ok(Map(Assign(es, "spec", Map(Assign(spec', "clusterName", Str(cluster))))))
      case _ => Err(Malformed)
  }

  /** On a WebStack document the patch fails exactly when `spec` is not a
      dict. When it succeeds, only `spec` changes: it gets the image, and the
      cluster name when one is given; nothing else in `spec` changes. */
  lemma WebStackEffect(doc: Node, repo: string, tag: string, cluster: string)
    requires KindOf(doc) == Some(WebStackKind)
    ensures WebStackPatched(doc, repo, tag, cluster).Ok? <==> SpecOf(doc).Some?
    ensures var r := WebStackPatched(doc, repo, tag, cluster);
      r.Ok? ==>
        var spec, spec' := SpecOf(doc).value, SpecOf(r.value).value;
        Remove(r.value.entries, "spec") == Remove(doc.entries, "spec") &&
        SpecOf(r.value).Some? &&
        Lookup(spec', "image") == Some(Str(ImageRef(repo, tag))) &&
        if cluster != [] then
          Lookup(spec', "clusterName") == Some(Str(cluster)) &&
          Remove(Remove(spec', "image"), "clusterName") == Remove(Remove(spec, "image"), "clusterName")
        else
          Remove(spec', "image") == Remove(spec, "image")
  {
    if SpecOf(doc).Some? && cluster != [] {
      var spec := SpecOf(doc).value;
      var spec' := Assign(spec, "image", Str(ImageRef(repo, tag)));
      var spec'' := Assign(spec', "clusterName", Str(cluster));
      AssignOther(spec', "clusterName", Str(cluster), "image");
      RemoveCommutes(spec'', "image", "clusterName");
      RemoveCommutes(spec', "image", "clusterName");
      RemoveCommutes(spec, "image", "clusterName");
    }
  }

  /** Running the WebStack patch on its own output changes nothing more. */
  lemma WebStackIdempotent(doc: Node, repo: string, tag: string, cluster: string)
    requires WebStackPatched(doc, repo, tag, cluster).Ok?
    ensures WebStackPatched(WebStackPatched(doc, repo, tag, cluster).value, repo, tag, cluster)
         == WebStackPatched(doc, repo, tag, cluster)
  {
    var es := doc.entries;
    var spec := Lookup(es, "spec").value.entries;
    var img := Str(ImageRef(repo, tag));
    var spec' := Assign(spec, "image", img);
    if cluster != [] {
      var spec'' := Assign(spec', "clusterName", Str(cluster));
      AssignOther(es, "spec", Map(spec''), "kind");
      AssignOther(spec', "clusterName", Str(cluster), "image");
      AssignCurrent(spec'', "image", img);
      AssignCurrent(spec'', "clusterName", Str(cluster));
      AssignTwice(es, "spec", Map(spec''), Map(spec''));
    } else {
      AssignOther(es, "spec", Map(spec'), "kind");
      AssignCurrent(spec', "image", img);
      AssignTwice(es, "spec", Map(spec'), Map(spec'));
    }
  }
}
