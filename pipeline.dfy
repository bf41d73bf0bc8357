/**
 * The `main` driver: check that the five documents exist and that a
 * repository URI was given, discover the network facts, then run the five
 * patchers in a fixed order, each loading its document, patching it and
 * writing it back. The first failure ends the run; documents written before
 * it stay written.
 */
module Pipeline {
  import opened Results
  import opened Tree
  import NetworkPatch
  import IdentityPatch
  import StackPatch
  import IngressPatch
  import Discovery

  /** A file on disk, as `yaml.safe_load` sees it: the document its text
      parses to, or text it cannot parse. */
  datatype File = Parsed(doc: Node) | Unparsable

  /** The command line once parsed: the five document paths and the options.
      `repoUri` is `--ecr-repo-uri`, or `ECR_IMAGE_URI` when the option is absent. */
  datatype Args = Args(
    networkYaml: string, identityYaml: string, dbYaml: string, webYaml: string, webappYaml: string,
    cluster: string, region: string, repoUri: Option<string>,
    ecrTag: string, webTag: string, ingressClass: string)

  /** The five patchers, in the order the driver runs them. */
  datatype Patcher = Network | Identity | DbWebStack | WebStack | Ingress

  const Order: seq<Patcher> := [Network, Identity, DbWebStack, WebStack, Ingress]

  /** The positional paths, in the order they are checked. */
  function Paths(a: Args): seq<string>
  {
    [a.networkYaml, a.identityYaml, a.dbYaml, a.webYaml, a.webappYaml]
  }

  /** The document each patcher edits. */
  function PathOf(a: Args, p: Patcher): string
  {
    match p
    case Network => a.networkYaml
    case Identity => a.identityYaml
    case DbWebStack => a.dbYaml
    case WebStack => a.webYaml
    case Ingress => a.webappYaml
  }

  /** The first of `paths` that does not exist, if any. */
  function FirstMissingPath(paths: seq<string>, files: map<string, File>): (r: Option<string>)
    ensures r.None? <==> forall i :: 0 <= i < |paths| ==> paths[i] in files
    ensures r.Some? ==> exists i :: 0 <= i < |paths| && paths[i] == r.value && r.value !in files &&
                                   forall j :: 0 <= j < i ==> paths[j] in files
  {
    if paths == [] then None
    else if paths[0] !in files then Some(paths[0])
    else
      var r := FirstMissingPath(paths[1..], files);
      assert forall j :: 1 <= j < |paths| ==> paths[j] == paths[1..][j - 1];
      r
  }

  /** `yaml.safe_load(open(path))`. */
  function Load(files: map<string, File>, path: string): Result<Node>
  {
    if path !in files then Err(FileMissing(path))
    else
      match files[path]
      case Parsed(doc) => Ok(doc)
      case Unparsable => Err(LoadFailed(path))
  }

  /** What `yaml.dump` writes: text that loads back as the document without
      its block-literal hints. */
  function Written(d: Node): File
  {
    Parsed(Plain(d))
  }

  /** How each patcher turns its loaded document into the one it writes back. */
  type Editor = (Patcher, Node) -> Result<Node>

  /** The patch of each `update_*_yaml` routine, with the arguments `main` passes it. */
  function Edits(a: Args, repo: string, f: NetworkPatch.Facts, c: IdentityPatch.Codecs): Editor
  {
    (p: Patcher, doc: Node) =>
      match p
      case Network => NetworkPatch.Patched(doc, f)
      case Identity => IdentityPatch.Patched(doc, a.cluster, c)
      case DbWebStack => StackPatch.DbWebStackPatched(doc, repo, a.ecrTag, a.region)
      case WebStack => StackPatch.WebStackPatched(doc, repo, a.webTag, a.cluster)
      case Ingress => IngressPatch.Patched(doc, a.ingressClass)
  }

  /** The document patcher `p` would write, given the files as they are now,
      or why it fails. */
  function Edited(p: Patcher, a: Args, edit: Editor, files: map<string, File>): Result<Node>
  {
    match Load(files, PathOf(a, p))
    case Err(e) => Err(e)
    case Ok(doc) => edit(p, doc)
  }

  /** The files after a run, and the failure that ended it, if any. */
  datatype Outcome = Outcome(files: map<string, File>, failure: Option<Failure>)

  /** One `update_*_yaml` call: load, patch, write back; nothing is written on failure. */
  function Step(p: Patcher, a: Args, edit: Editor, files: map<string, File>): Outcome
  {
    match Edited(p, a, edit, files)
    case Err(e) => Outcome(files, Some(e))
    case Ok(d) => Outcome(files[PathOf(a, p) := Written(d)], None)
  }

  /** The patchers run one after another until one fails. */
  function Steps(ps: seq<Patcher>, a: Args, edit: Editor, files: map<string, File>): Outcome
  {
    if ps == [] then Outcome(files, None)
    else
      var o := Step(ps[0], a, edit, files);
      if o.failure.Some? then o else Steps(ps[1..], a, edit, o.files)
  }

  /** The whole run of `main` after argument parsing. */
  function Sync(a: Args, cloud: Discovery.Cloud, c: IdentityPatch.Codecs, files: map<string, File>): Outcome
  {
    match FirstMissingPath(Paths(a), files)
    case Some(path) => Outcome(files, Some(FileMissing(path)))
    case None =>
      if a.repoUri.None? || a.repoUri.value == [] then Outcome(files, Some(NoRepoUri))
      else
        match Discovery.Discover(cloud, a.cluster)
        case Err(e) => Outcome(files, Some(e))
        case Ok(f) => Steps(Order, a, Edits(a, a.repoUri.value, f, c), files)
  }

  /*** Properties of the driver ***/

  /** The patchers only rewrite existing documents: the set of files never changes. */
  lemma {:induction false} StepsKeepPaths(ps: seq<Patcher>, a: Args, edit: Editor, files: map<string, File>)
    ensures Steps(ps, a, edit, files).files.Keys == files.Keys
  {
    if ps != [] {
      var o := Step(ps[0], a, edit, files);
      StepsKeepPaths(ps[1..], a, edit, o.files);
    }
  }

  /** No document is touched unless every path exists, a repository URI was
      given and discovery succeeded: a missing file, a missing URI or a
      failed discovery (too few private subnets, say) ends the run with that
      failure and every file as it was. */
  lemma NothingWrittenBeforeDiscovery(a: Args, cloud: Discovery.Cloud, c: IdentityPatch.Codecs, files: map<string, File>)
    ensures var o := Sync(a, cloud, c, files);
      (exists i :: 0 <= i < 5 && Paths(a)[i] !in files) ==>
        o.files == files && o.failure.Some? && o.failure.value.FileMissing? && o.failure.value.path !in files
    ensures var o := Sync(a, cloud, c, files);
      (forall i :: 0 <= i < 5 ==> Paths(a)[i] in files) && (a.repoUri.None? || a.repoUri.value == []) ==>
        o == Outcome(files, Some(NoRepoUri))
    ensures var o := Sync(a, cloud, c, files);
      (forall i :: 0 <= i < 5 ==> Paths(a)[i] in files) && a.repoUri.Some? && a.repoUri.value != [] &&
      Discovery.Discover(cloud, a.cluster).Err? ==>
        o == Outcome(files, Some(Discovery.Discover(cloud, a.cluster).error))
  {
  }

  /** The five paths are different files. */
  predicate Distinct(a: Args, ps: seq<Patcher>)
  {
    forall i, j :: 0 <= i < j < |ps| ==> PathOf(a, ps[i]) != PathOf(a, ps[j])
  }

  /** The position of the first patcher that fails on the documents as they
      were before the run, or `|ps|` when none fails. */
  function FirstFailing(ps: seq<Patcher>, a: Args, edit: Editor, files: map<string, File>): (k: nat)
    ensures k <= |ps|
    ensures k < |ps| ==> Edited(ps[k], a, edit, files).Err?
  {
    if ps == [] then 0
    else if Edited(ps[0], a, edit, files).Err? then 0
    else 1 + FirstFailing(ps[1..], a, edit, files)
  }

  /** Writing one document does not change what a patcher of another document sees. */
  lemma {:induction false} FirstFailingFrame(ps: seq<Patcher>, a: Args, edit: Editor, files: map<string, File>,
                                             path: string, w: File)
    requires forall i :: 0 <= i < |ps| ==> PathOf(a, ps[i]) != path
    ensures FirstFailing(ps, a, edit, files[path := w]) == FirstFailing(ps, a, edit, files)
    ensures forall i :: 0 <= i < |ps| ==> Edited(ps[i], a, edit, files[path := w]) == Edited(ps[i], a, edit, files)
  {
    if ps != [] {
      FirstFailingFrame(ps[1..], a, edit, files, path, w);
      assert forall i :: 1 <= i < |ps| ==> ps[1..][i - 1] == ps[i];
    }
  }

  /** After a first step that succeeds, the remaining patchers see the
      documents they would have seen before it. */
  lemma AfterFirstStep(ps: seq<Patcher>, a: Args, edit: Editor, files: map<string, File>)
    requires Distinct(a, ps) && ps != [] && Edited(ps[0], a, edit, files).Ok?
    ensures var o1 := Step(ps[0], a, edit, files);
      Distinct(a, ps[1..]) &&
      o1.files == files[PathOf(a, ps[0]) := Written(Edited(ps[0], a, edit, files).value)] &&
      FirstFailing(ps, a, edit, files) == 1 + FirstFailing(ps[1..], a, edit, o1.files) &&
      (forall i :: 0 <= i < |ps| - 1 ==> PathOf(a, ps[1..][i]) != PathOf(a, ps[0])) &&
      (forall i :: 0 <= i < |ps| - 1 ==> Edited(ps[1..][i], a, edit, o1.files) == Edited(ps[i + 1], a, edit, files))
  {
    var rest := ps[1..];
    var path := PathOf(a, ps[0]);
    var w := Written(Edited(ps[0], a, edit, files).value);
    assert forall i :: 0 <= i < |rest| ==> rest[i] == ps[i + 1];
    assert forall i :: 0 <= i < |rest| ==> PathOf(a, rest[i]) != path;
    FirstFailingFrame(rest, a, edit, files, path, w);
  }

  /** The run completes exactly when no patcher fails on its document, and
      otherwise reports the error of the first one that does. */
  lemma {:induction false} FailFastStops(ps: seq<Patcher>, a: Args, edit: Editor, files: map<string, File>)
    requires Distinct(a, ps)
    ensures var o, k := Steps(ps, a, edit, files), FirstFailing(ps, a, edit, files);
      (o.failure.None? <==> k == |ps|) &&
      (k < |ps| ==> o.failure == Some(Edited(ps[k], a, edit, files).error))
  {
    if ps != [] && Edited(ps[0], a, edit, files).Ok? {
      var o1 := Step(ps[0], a, edit, files);
      AfterFirstStep(ps, a, edit, files);
      FailFastStops(ps[1..], a, edit, o1.files);
    }
  }

  /** No document outside the first `FirstFailing` patchers' is written. */
  lemma {:induction false} FailFastFrame(ps: seq<Patcher>, a: Args, edit: Editor, files: map<string, File>)
    requires Distinct(a, ps)
    ensures var o, k := Steps(ps, a, edit, files), FirstFailing(ps, a, edit, files);
      forall q :: q in files && (forall i :: 0 <= i < k ==> q != PathOf(a, ps[i])) ==>
                  q in o.files && o.files[q] == files[q]
  {
    if ps != [] && Edited(ps[0], a, edit, files).Ok? {
      var o1 := Step(ps[0], a, edit, files);
      AfterFirstStep(ps, a, edit, files);
      FailFastFrame(ps[1..], a, edit, o1.files);
      var k := FirstFailing(ps, a, edit, files);
      forall q | q in files && (forall i :: 0 <= i < k ==> q != PathOf(a, ps[i]))
        ensures q in o1.files && o1.files[q] == files[q]
        ensures forall i :: 0 <= i < k - 1 ==> q != PathOf(a, ps[1..][i])
      {
        assert q != PathOf(a, ps[0]);
        assert forall i :: 0 <= i < k - 1 ==> ps[1..][i] == ps[i + 1];
      }
    }
  }

  /** Each of the first `FirstFailing` patchers has written its patched document. */
  lemma {:induction false} FailFastWritten(ps: seq<Patcher>, a: Args, edit: Editor, files: map<string, File>)
    requires Distinct(a, ps)
    ensures var o, k := Steps(ps, a, edit, files), FirstFailing(ps, a, edit, files);
      forall i :: 0 <= i < k ==> Edited(ps[i], a, edit, files).Ok? && PathOf(a, ps[i]) in o.files &&
                                 o.files[PathOf(a, ps[i])] == Written(Edited(ps[i], a, edit, files).value)
  {
    if ps != [] && Edited(ps[0], a, edit, files).Ok? {
      var o1 := Step(ps[0], a, edit, files);
      AfterFirstStep(ps, a, edit, files);
      FailFastWritten(ps[1..], a, edit, o1.files);
      FailFastFrame(ps[1..], a, edit, o1.files);
    }
  }

  /** Fail-fast with no rollback, for distinct documents: the run stops at the
      first patcher that fails on its document and reports that patcher's
      error; every patcher before it has written its patched document, and
      every other document is as it was. The run completes exactly when no
      patcher fails. */
  lemma FailFast(ps: seq<Patcher>, a: Args, edit: Editor, files: map<string, File>)
    requires Distinct(a, ps)
    ensures var o, k := Steps(ps, a, edit, files), FirstFailing(ps, a, edit, files);
      (o.failure.None? <==> k == |ps|) &&
      (k < |ps| ==> o.failure == Some(Edited(ps[k], a, edit, files).error)) &&
      (forall i :: 0 <= i < k ==> Edited(ps[i], a, edit, files).Ok? && PathOf(a, ps[i]) in o.files &&
                                  o.files[PathOf(a, ps[i])] == Written(Edited(ps[i], a, edit, files).value)) &&
      (forall q :: q in files && (forall i :: 0 <= i < k ==> q != PathOf(a, ps[i])) ==>
                   q in o.files && o.files[q] == files[q])
  {
    FailFastStops(ps, a, edit, files);
    FailFastWritten(ps, a, edit, files);
    FailFastFrame(ps, a, edit, files);
  }

  /** A completed run with distinct documents leaves each document holding
      its patcher's output on the original document. */
  lemma Completed(a: Args, cloud: Discovery.Cloud, c: IdentityPatch.Codecs, files: map<string, File>)
    requires Distinct(a, Order)
    requires Sync(a, cloud, c, files).failure.None?
    ensures Discovery.Discover(cloud, a.cluster).Ok? && a.repoUri.Some?
    ensures var o := Sync(a, cloud, c, files);
      var edit := Edits(a, a.repoUri.value, Discovery.Discover(cloud, a.cluster).value, c);
      forall p :: Edited(p, a, edit, files).Ok? && PathOf(a, p) in o.files &&
                  o.files[PathOf(a, p)] == Written(Edited(p, a, edit, files).value)
  {
    var edit := Edits(a, a.repoUri.value, Discovery.Discover(cloud, a.cluster).value, c);
    FailFast(Order, a, edit, files);
    forall p
      ensures Edited(p, a, edit, files).Ok? && PathOf(a, p) in Sync(a, cloud, c, files).files &&
              Sync(a, cloud, c, files).files[PathOf(a, p)] == Written(Edited(p, a, edit, files).value)
    {
      var i := match p case Network => 0 case Identity => 1 case DbWebStack => 2 case WebStack => 3 case Ingress => 4;
      assert Order[i] == p;
    }
  }

  /** Once the checks and discovery pass, the run is the five steps. */
  lemma SyncSteps(a: Args, cloud: Discovery.Cloud, c: IdentityPatch.Codecs, files: map<string, File>)
    requires FirstMissingPath(Paths(a), files).None?
    requires a.repoUri.Some? && a.repoUri.value != []
    requires Discovery.Discover(cloud, a.cluster).Ok?
    ensures Sync(a, cloud, c, files) ==
      Steps(Order, a, Edits(a, a.repoUri.value, Discovery.Discover(cloud, a.cluster).value, c), files)
  {
  }

  /** The run goes on after a step that succeeds and stops at one that fails. */
  lemma StepsFirst(ps: seq<Patcher>, a: Args, edit: Editor, files: map<string, File>, o: Outcome)
    requires ps != [] && o == Step(ps[0], a, edit, files)
    ensures Steps(ps, a, edit, files) == if o.failure.Some? then o else Steps(ps[1..], a, edit, o.files)
  {
  }

  /*** Implementation: the driver as the script runs it ***/

  /** The documents on disk, which the run reads and rewrites in place. */
  class Workspace {
    var files: map<string, File>

    constructor(files0: map<string, File>)
      ensures files == files0
    {
      files := files0;
    }

    /** `for f in (...): if not os.path.exists(f): fail(...)`. */
    method FirstMissing(paths: seq<string>) returns (missing: Option<string>)
      ensures missing == FirstMissingPath(paths, files)
    {
      var i := 0;
      while i < |paths|
        invariant 0 <= i <= |paths|
        invariant FirstMissingPath(paths, files) == FirstMissingPath(paths[i..], files)
      {
        assert paths[i..][1..] == paths[i + 1..];
        if paths[i] !in files {
          return Some(paths[i]);
        }
        i := i + 1;
      }
      return None;
    }

    /** One `update_*_yaml` call: load, patch, write back. */
    method Update(p: Patcher, a: Args, repo: string, f: NetworkPatch.Facts, c: IdentityPatch.Codecs)
      returns (failure: Option<Failure>)
      modifies this
      ensures Outcome(files, failure) == Step(p, a, Edits(a, repo, f, c), old(files))
    {
      var path := PathOf(a, p);
      var loaded := Load(files, path);
      if loaded.Err? {
        return Some(loaded.error);
      }
      var doc := loaded.value;
      var r: Result<Node>;
      match p {
        case Network => r := NetworkPatch.Apply(doc, f);
        case Identity => r := IdentityPatch.Apply(doc, a.cluster, c);
        case DbWebStack => r := StackPatch.DbWebStackPatched(doc, repo, a.ecrTag, a.region);
        case WebStack => r := StackPatch.WebStackPatched(doc, repo, a.webTag, a.cluster);
        case Ingress => r := IngressPatch.Apply(doc, a.ingressClass);
      }
      assert r == Edits(a, repo, f, c)(p, doc);
      if r.Err? {
        return Some(r.error);
      }
      files := files[path := Written(r.value)];
      return None;
    }

    /** `main` after argument parsing: the checks, discovery, then the five
        updates in order, stopping at the first failure. */
    method Run(a: Args, cloud: Discovery.Cloud, c: IdentityPatch.Codecs) returns (failure: Option<Failure>)
      modifies this
      ensures Outcome(files, failure) == Sync(a, cloud, c, old(files))
    {
      var missing := FirstMissing(Paths(a));
      if missing.Some? {
        return Some(FileMissing(missing.value));
      }
      if a.repoUri.None? || a.repoUri.value == [] {
        return Some(NoRepoUri);
      }
      var repo := a.repoUri.value;
      var discovered := Discovery.Discover(cloud, a.cluster);
      if discovered.Err? {
        return Some(discovered.error);
      }
      var f := discovered.value;
      SyncSteps(a, cloud, c, files);
      failure := UpdateAll(a, repo, f, c);
    }

    /** The five `update_*_yaml` calls of `main`, in order, stopping at the
        first failure. */
    method UpdateAll(a: Args, repo: string, f: NetworkPatch.Facts, c: IdentityPatch.Codecs)
      returns (failure: Option<Failure>)
      modifies this
      ensures Outcome(files, failure) == Steps(Order, a, Edits(a, repo, f, c), old(files))
    {
      ghost var edit := Edits(a, repo, f, c);
      ghost var before := files;
      failure := Update(Network, a, repo, f, c);
      StepsFirst(Order, a, edit, before, Outcome(files, failure));
      if failure.Some? {
        return;
      }
      before := files;
      failure := Update(Identity, a, repo, f, c);
      StepsFirst(Order[1..], a, edit, before, Outcome(files, failure));
      if failure.Some? {
        return;
      }
      assert Order[1..][1..] == Order[2..];
      before := files;
      failure := Update(DbWebStack, a, repo, f, c);
      StepsFirst(Order[2..], a, edit, before, Outcome(files, failure));
      if failure.Some? {
        return;
      }
      assert Order[2..][1..] == Order[3..];
      before := files;
      failure := Update(WebStack, a, repo, f, c);
      StepsFirst(Order[3..], a, edit, before, Outcome(files, failure));
      if failure.Some? {
        return;
      }
      assert Order[3..][1..] == Order[4..];
      before := files;
      failure := Update(Ingress, a, repo, f, c);
      StepsFirst(Order[4..], a, edit, before, Outcome(files, failure));
      if failure.Some? {
        return;
      }
      assert Order[4..][1..] == [];
      return None;
    }
  }
}
