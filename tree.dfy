/**
 * The in-memory document tree that `yaml.safe_load` produces and `yaml.dump`
 * consumes, with the Python operations the patchers apply to it: `d.get(k)`,
 * `d[k] = v` (which keeps an existing key where it is and appends a new one),
 * `k in x`, truthiness, and the elements a `for` loop visits.
 */
module Tree {
  import opened Results

  /** A YAML node. `Literal` is a string the writer must emit as a `|` block
      (the `LiteralString` render hint); everywhere else it behaves as a string. */
  datatype Node =
    | Map(entries: seq<Entry>)
    | Seq(items: seq<Node>)
    | Str(s: string)
    | Literal(s: string)
    | Num(n: int)
    | Bool(b: bool)
    | Null

  /** One key/value pair of a mapping, in authored order. */
  datatype Entry = Entry(key: string, value: Node)

  /** The value of the first entry whose key is `k` (Python `m.get(k)`). */
  function Lookup(es: seq<Entry>, k: string): Option<Node>
  {
    if es == [] then None
    else if es[0].key == k then Some(es[0].value)
    else Lookup(es[1..], k)
  }

  /** The position of the first entry whose key is `k`, or `|es|` when there is none. */
  function KeyIndex(es: seq<Entry>, k: string): (i: nat)
    ensures i <= |es|
    ensures forall j :: 0 <= j < i ==> es[j].key != k
    ensures i < |es| <==> Lookup(es, k).Some?
    ensures i < |es| ==> es[i] == Entry(k, Lookup(es, k).value)
  {
    if es == [] || es[0].key == k then 0
    else
      assert forall j :: 1 <= j < |es| ==> es[j] == es[1..][j - 1];
      1 + KeyIndex(es[1..], k)
  }

  /** The entries without any entry whose key is `k` (`del`-like view used to state frames). */
  function Remove(es: seq<Entry>, k: string): (r: seq<Entry>)
    ensures forall i :: 0 <= i < |r| ==> r[i].key != k
    ensures forall k' | k' != k :: Lookup(r, k') == Lookup(es, k')
  {
    if es == [] then []
    else if es[0].key == k then Remove(es[1..], k)
    else [es[0]] + Remove(es[1..], k)
  }

  /** Python `m[k] = v` on a dict: an existing key keeps its position and gets
      the new value; a new key goes to the end (the positions are proved in
      `AssignInPlace` and `AssignAppends` below). */
  function Assign(es: seq<Entry>, k: string, v: Node): (r: seq<Entry>)
    ensures Lookup(r, k) == Some(v)
    ensures forall k' | k' != k :: Lookup(r, k') == Lookup(es, k')
    ensures Remove(r, k) == Remove(es, k)
    ensures |r| == if Lookup(es, k).Some? then |es| else |es| + 1
  {
    if es == [] then [Entry(k, v)]
    else if es[0].key == k then [Entry(k, v)] + es[1..]
    else
      var tail := Assign(es[1..], k, v);
      assert ([es[0]] + tail)[1..] == tail;
      [es[0]] + tail
  }

  /** `d[k] = v` on a key the dict has: the key keeps the position of its
      first entry, and the entries around it stay as they were. */
  lemma {:induction false} AssignInPlace(es: seq<Entry>, k: string, v: Node)
    requires Lookup(es, k).Some?
    ensures var i := KeyIndex(es, k); Assign(es, k, v) == es[..i] + [Entry(k, v)] + es[i + 1..]
  {
    var e := Entry(k, v);
    if es[0].key == k {
      assert KeyIndex(es, k) == 0;
      assert Assign(es, k, v) == [e] + es[1..];
      assert es[..0] + [e] + es[1..] == [e] + es[1..];
    } else {
      AssignInPlace(es[1..], k, v);
      var i := KeyIndex(es[1..], k);
      assert KeyIndex(es, k) == i + 1;
      calc {
        Assign(es, k, v);
        [es[0]] + Assign(es[1..], k, v);
        [es[0]] + (es[1..][..i] + [e] + es[1..][i + 1..]);
        { SplitAfterHead(es, i, e); }
        es[..i + 1] + [e] + es[i + 2..];
      }
    }
  }


  /** Replacing the element at `i + 1` of `s`, seen from the head and the rest. */
  lemma SplitAfterHead<T>(s: seq<T>, i: nat, y: T)
    requires i + 1 < |s|
    ensures [s[0]] + (s[1..][..i] + [y] + s[1..][i + 1..]) == s[..i + 1] + [y] + s[i + 2..]
  {
    assert s[..i + 1] == [s[0]] + s[1..][..i];
    assert s[i + 2..] == s[1..][i + 1..];
  }

  /** `d[k] = v` on a key the dict lacks: the new entry goes after all others. */
  lemma {:induction false} AssignAppends(es: seq<Entry>, k: string, v: Node)
    requires Lookup(es, k).None?
    ensures Assign(es, k, v) == es + [Entry(k, v)]
  {
    if es != [] {
      var e, rest := [es[0]], es[1..];
      AssignAppends(rest, k, v);
      assert es == e + rest;
      assert e + (rest + [Entry(k, v)]) == (e + rest) + [Entry(k, v)];
    }
  }

  /** Assigning one key leaves the value of another where it was. */
  lemma AssignOther(es: seq<Entry>, k: string, v: Node, k2: string)
    requires k2 != k
    ensures Lookup(Assign(es, k, v), k2) == Lookup(es, k2)
  {
  }

  /** Assigning the value a key already has changes nothing. */
  lemma {:induction false} AssignCurrent(es: seq<Entry>, k: string, v: Node)
    requires Lookup(es, k) == Some(v)
    ensures Assign(es, k, v) == es
  {
    if es != [] && es[0].key != k {
      AssignCurrent(es[1..], k, v);
    }
  }

  /** A second assignment to the same key overrides the first. */
  lemma {:induction false} AssignTwice(es: seq<Entry>, k: string, v: Node, w: Node)
    ensures Assign(Assign(es, k, v), k, w) == Assign(es, k, w)
  {
    if es != [] && es[0].key != k {
      AssignTwice(es[1..], k, v, w);
      assert Assign(es, k, v)[1..] == Assign(es[1..], k, v);
    }
  }

  /** Removing two keys does not depend on the order. */
  lemma {:induction false} RemoveCommutes(es: seq<Entry>, k1: string, k2: string)
    ensures Remove(Remove(es, k1), k2) == Remove(Remove(es, k2), k1)
  {
    if es != [] {
      RemoveCommutes(es[1..], k1, k2);
      if es[0].key != k1 && es[0].key != k2 {
        assert ([es[0]] + Remove(es[1..], k1))[1..] == Remove(es[1..], k1);
        assert ([es[0]] + Remove(es[1..], k2))[1..] == Remove(es[1..], k2);
      } else if es[0].key != k1 {
        assert ([es[0]] + Remove(es[1..], k1))[1..] == Remove(es[1..], k1);
      } else if es[0].key != k2 {
        assert ([es[0]] + Remove(es[1..], k2))[1..] == Remove(es[1..], k2);
      }
    }
  }

  /** The text of a string node, whether or not it carries the block hint. */
  function Text(n: Node): Option<string>
  {
    match n
    case Str(s) => Some(s)
    case Literal(s) => Some(s)
    case _ => None
  }

  /** The same node with every block-literal hint dropped: what reading back
      written text gives, since the hint only affects how the text is laid out. */
  function Plain(n: Node): Node
  {
    match n
    case Map(es) => Map(seq(|es|, i requires 0 <= i < |es| => Entry(es[i].key, Plain(es[i].value))))
    case Seq(items) => Seq(seq(|items|, i requires 0 <= i < |items| => Plain(items[i])))
    case Literal(s) => Str(s)
    case _ => n
  }

  /** Python `m.get(k) == name` for a string literal `name`. */
  predicate HasText(es: seq<Entry>, k: string, name: string)
  {
    match Lookup(es, k)
    case Some(v) => Text(v) == Some(name)
    case None => false
  }

  /** Python truthiness: empty containers, empty strings, `False`, `0` and `None` are false. */
  predicate Truthy(n: Node)
  {
    match n
    case Map(es) => es != []
    case Seq(items) => items != []
    case Str(s) => s != []
    case Literal(s) => s != []
    case Num(x) => x != 0
    case Bool(b) => b
    case Null => false
  }

  /** Whether `k` occurs in `s` as a contiguous substring (Python `k in s` on strings). */
  predicate IsSubstring(k: string, s: string)
  {
    k <= s || (s != [] && IsSubstring(k, s[1..]))
  }

  /** Python `k in x` for a string `k`: a key test on a dict, an element test on
      a list, a substring test on a string; any other value raises TypeError. */
  function Contains(x: Node, k: string): (r: Result<bool>)
    ensures x.Map? ==> r == Ok(Lookup(x.entries, k).Some?)
    ensures x.Seq? ==> r == Ok(exists i :: 0 <= i < |x.items| && Text(x.items[i]) == Some(k))
    ensures r.Err? <==> x.Num? || x.Bool? || x.Null?
  {
    match x
    case Map(es) => Ok(Lookup(es, k).Some?)
    case Seq(items) => Ok(exists i | 0 <= i < |items| :: Text(items[i]) == Some(k))
    case Str(s) => Ok(IsSubstring(k, s))
    case Literal(s) => Ok(IsSubstring(k, s))
    case _ => Err(Malformed)
  }

  /** The elements `for x in n` visits, for a loop whose body treats each `x`
      as a dict: a list yields its items, an empty dict or string yields
      nothing; a non-empty dict or string yields strings, on which that body
      raises, and a scalar is not iterable. */
  function Elements(n: Node): (r: Result<seq<Node>>)
    ensures r.Ok? && r.value != [] ==> n == Seq(r.value)
    ensures n.Seq? ==> r == Ok(n.items)
  {
    match n
    case Seq(items) => Ok(items)
    case Map(es) => if es == [] then Ok([]) else Err(Malformed)
    case Str(s) => if s == [] then Ok([]) else Err(Malformed)
    case Literal(s) => if s == [] then Ok([]) else Err(Malformed)
    case _ => Err(Malformed)
  }

  /** A list of plain strings, as Python stores a `list` of `str`. */
  function StrList(ss: seq<string>): (r: Node)
    ensures r.Seq? && |r.items| == |ss|
    ensures forall i :: 0 <= i < |ss| ==> r.items[i] == Str(ss[i])
  {
    Seq(seq(|ss|, i requires 0 <= i < |ss| => Str(ss[i])))
  }

  /** `r["template"]["spec"]` when the caller then assigns into it: every step
      must exist and be a dict, or Python raises. */
  function TemplateSpec(r: seq<Entry>): (s: Result<seq<Entry>>)
  {
    match Lookup(r, "template")
    case Some(Map(t)) =>
      (match Lookup(t, "spec")
       case Some(Map(spec)) => Ok(spec)
       case _ => Err(Malformed))
    case _ => Err(Malformed)
  }

  /** `r.get("template", {}).get("spec")`: no template means no spec, and a
      template that is not a dict raises AttributeError. */
  function OptionalTemplateSpec(r: seq<Entry>): Result<Option<Node>>
  {
    match Lookup(r, "template")
    case None => Ok(None)
    case Some(Map(t)) => Ok(Lookup(t, "spec"))
    case Some(_) => Err(Malformed)
  }

  /** The resource `r` after its `template.spec` dict was changed in place to `spec`. */
  function WithTemplateSpec(r: seq<Entry>, spec: seq<Entry>): (r': seq<Entry>)
    requires Lookup(r, "template").Some? && Lookup(r, "template").value.Map?
    ensures TemplateSpec(r') == Ok(spec)
    ensures Remove(r', "template") == Remove(r, "template")
    ensures forall k | k != "template" :: Lookup(r', k) == Lookup(r, k)
    ensures Lookup(r', "template").Some? && Lookup(r', "template").value.Map?
    ensures Remove(Lookup(r', "template").value.entries, "spec")
         == Remove(Lookup(r, "template").value.entries, "spec")
  {
    Assign(r, "template", Map(Assign(Lookup(r, "template").value.entries, "spec", Map(spec))))
  }

  /** Writing back the `template.spec` that is already there changes nothing. */
  lemma WithTemplateSpecCurrent(r: seq<Entry>, spec: seq<Entry>)
    requires TemplateSpec(r) == Ok(spec)
    ensures WithTemplateSpec(r, spec) == r
  {
    var t := Lookup(r, "template").value.entries;
    AssignCurrent(t, "spec", Map(spec));
    AssignCurrent(r, "template", Map(t));
  }

}
