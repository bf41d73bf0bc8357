/**
 * What every patcher does before and after its own edits: the `kind` guard,
 * the walk into `spec.resources`, and putting the edited resource list back.
 */
module Documents {
  import opened Results
  import opened Tree

  const ResourceGraphDefinition: string := "ResourceGraphDefinition"
  const DbWebStackKind: string := "DbWebStack"
  const WebStackKind: string := "WebStack"

  /** The document's `kind`, when the document is a mapping whose `kind` is a string. */
  function KindOf(doc: Node): Option<string>
  {
    if doc.Map? then
      match Lookup(doc.entries, "kind")
      case Some(v) => Text(v)
      case None => None
    else None
  }

  /** `if doc.get("kind") != expected: fail(...)`. A loaded document that is
      not a mapping (an empty file loads as `None`) has no `.get` and raises. */
  function CheckKind(doc: Node, expected: string): (r: Result<seq<Entry>>)
    ensures r.Ok? <==> KindOf(doc) == Some(expected)
    ensures r.Ok? ==> doc == Map(r.value)
    ensures doc.Map? && KindOf(doc) != Some(expected) ==> r == Err(KindMismatch(expected))
  {
    if !doc.Map? then Err(Malformed)
    else if KindOf(doc) == Some(expected) then Ok(doc.entries)
    else Err(KindMismatch(expected))
  }

  /** The resources `for r in doc["spec"].get("resources", [])` visits. A
      missing `spec` raises KeyError and a `spec` that is not a dict has no `.get`. */
  function ResourceList(doc: seq<Entry>): Result<seq<Node>>
  {
    match Lookup(doc, "spec")
    case Some(Map(spec)) =>
      (match Lookup(spec, "resources")
       case None => Ok([])
       case Some(v) => Elements(v))
    case _ => Err(Malformed)
  }

  /** A document before and after: everything outside `spec.resources` is the same. */
  ghost predicate SameOutsideResources(doc: seq<Entry>, d: seq<Entry>)
  {
    Remove(d, "spec") == Remove(doc, "spec") &&
    Lookup(doc, "spec").Some? && Lookup(doc, "spec").value.Map? &&
    Lookup(d, "spec").Some? && Lookup(d, "spec").value.Map? &&
    Remove(Lookup(d, "spec").value.entries, "resources") == Remove(Lookup(doc, "spec").value.entries, "resources")
  }

  /** A resource before and after: everything outside `template.spec` is the same. */
  ghost predicate SameOutsideSpec(r: seq<Entry>, r': seq<Entry>)
  {
    Remove(r', "template") == Remove(r, "template") &&
    Lookup(r, "template").Some? && Lookup(r, "template").value.Map? &&
    Lookup(r', "template").Some? && Lookup(r', "template").value.Map? &&
    Remove(Lookup(r', "template").value.entries, "spec") == Remove(Lookup(r, "template").value.entries, "spec")
  }

  /** The document after the loop over its resources changed them in place to
      `rs`: a loop that visited nothing leaves the document as it was. */
  function WithResources(doc: seq<Entry>, rs: seq<Node>): (d: seq<Entry>)
    requires ResourceList(doc).Ok? && |rs| == |ResourceList(doc).value|
    ensures ResourceList(d) == Ok(rs)
    ensures SameOutsideResources(doc, d)
    ensures forall k | k != "spec" :: Lookup(d, k) == Lookup(doc, k)
  {
    if rs == [] then doc
    else
      var spec := Lookup(doc, "spec").value.entries;
      Assign(doc, "spec", Map(Assign(spec, "resources", Seq(rs))))
  }

  /** Replacing the resource list keeps the document's kind. */
  lemma WithResourcesKind(doc: seq<Entry>, rs: seq<Node>)
    requires ResourceList(doc).Ok? && |rs| == |ResourceList(doc).value|
    ensures Lookup(WithResources(doc, rs), "kind") == Lookup(doc, "kind")
  {
    assert "kind" != "spec";
  }

  /** Putting back the resource list that is already there changes nothing. */
  lemma WithResourcesCurrent(doc: seq<Entry>, rs: seq<Node>)
    requires ResourceList(doc) == Ok(rs)
    ensures WithResources(doc, rs) == doc
  {
    if rs != [] {
      var spec := Lookup(doc, "spec").value.entries;
      AssignCurrent(spec, "resources", Seq(rs));
      AssignCurrent(doc, "spec", Map(spec));
    }
  }

  /** The list built by a loop over `rs` that stops at the first failing
      element: `Ok(done + rest)` if the remaining elements give `Ok(rest)`. */
  function Prefixed(done: seq<Node>, rest: Result<seq<Node>>): Result<seq<Node>>
  {
    match rest
    case Ok(tail) => Ok(done + tail)
    case Err(e) => Err(e)
  }

  /** Before the loop has done anything, the result is the remaining elements' result. */
  lemma PrefixedNothing(rest: Result<seq<Node>>)
    ensures Prefixed([], rest) == rest
  {
    if rest.Ok? {
      assert [] + rest.value == rest.value;
    }
  }

  /** One more element done: moving it from the remaining result to the prefix. */
  lemma PrefixedStep(done: seq<Node>, x: Node, rest: Result<seq<Node>>)
    ensures Prefixed(done, Prefixed([x], rest)) == Prefixed(done + [x], rest)
  {
    if rest.Ok? {
      assert done + ([x] + rest.value) == (done + [x]) + rest.value;
    }
  }

  /** The list and flag built by a loop over resources that sets a flag when it
      updates one and stops at the first failing element. */
  function Flagged(done: seq<Node>, found: bool, rest: Result<(seq<Node>, bool)>): Result<(seq<Node>, bool)>
  {
    match rest
    case Ok((tail, b)) => Ok((done + tail, found || b))
    case Err(e) => Err(e)
  }

  /** Before the loop has done anything, the result is the remaining elements' result. */
  lemma FlaggedNothing(rest: Result<(seq<Node>, bool)>)
    ensures Flagged([], false, rest) == rest
  {
    if rest.Ok? {
      assert [] + rest.value.0 == rest.value.0;
    }
  }

  /** One more element done: moving it and its flag from the remaining result to the prefix. */
  lemma FlaggedStep(done: seq<Node>, found: bool, x: Node, b: bool, rest: Result<(seq<Node>, bool)>)
    ensures Flagged(done, found, Flagged([x], b, rest)) == Flagged(done + [x], found || b, rest)
  {
    if rest.Ok? {
      assert done + ([x] + rest.value.0) == (done + [x]) + rest.value.0;
    }
  }
}
