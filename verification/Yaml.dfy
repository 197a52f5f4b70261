/** YAML trees as the parser builds them, and the edits that make a manifest safe to apply. */
module Yaml {
  import opened Models
  import Text

  datatype Kind = Document | Sequence | Mapping | Scalar | Alias

  /** A mapping's children are keys and values in turn. */
  datatype Tree = Tree(kind: Kind, tag: string, value: string, kids: seq<Tree>) {
    function Label(): (Kind, string, string) { (kind, tag, value) }
  }

  const STR := "!!str"
  const SECRET := "ha-registry"
  const SECRETS := "imagePullSecrets"

  function Str(value: string): Tree { Tree(Scalar, STR, value, []) }

  /** The index of the first value under key, from pair i on, of the wanted kind if one is wanted. */
  function Find(kids: seq<Tree>, key: string, want: Option<Kind>, i: nat): (r: Option<nat>)
    ensures r.Some? ==> i < r.value < |kids| && kids[r.value - 1].value == key && (want.Some? ==> kids[r.value].kind == want.value)
    decreases |kids| - i
  {
    if i + 1 >= |kids| then None
    else if kids[i].value == key && (want.None? || kids[i + 1].kind == want.value) then Some(i + 1)
    else Find(kids, key, want, i + 2)
  }

  function Lookup(t: Tree, key: string, want: Option<Kind>): Option<nat> {
    if t.kind == Mapping then Find(t.kids, key, want, 0) else None
  }

  function StringAt(t: Tree, key: string): string {
    var j := Lookup(t, key, None);
    if j.Some? then Text.Trim(t.kids[j.value].value) else ""
  }

  /** The value node keeps its children when it becomes a scalar, which no longer prints them. */
  function AsString(t: Tree, value: string): Tree { t.(kind := Scalar, tag := STR, value := value) }

  function SetString(t: Tree, key: string, value: string): Tree {
    if t.kind != Mapping then t
    else
      match Lookup(t, key, None)
      case Some(j) => t.(kids := t.kids[j := AsString(t.kids[j], value)])
      case None => t.(kids := t.kids + [Str(key), Str(value)])
  }

  predicate HasSecret(items: seq<Tree>) { exists i :: 0 <= i < |items| && StringAt(items[i], "name") == SECRET }

  const ENTRY := Tree(Mapping, "!!map", "", [Str("name"), Str(SECRET)])

  function WithSecrets(t: Tree): Tree {
    if Lookup(t, SECRETS, Some(Sequence)).Some? then t else t.(kids := t.kids + [Str(SECRETS), Tree(Sequence, "!!seq", "", [])])
  }

  /** Where the list of secrets is, once there is one. */
  function SecretsAt(t: Tree): nat {
    var j := Lookup(t, SECRETS, Some(Sequence));
    if j.Some? then j.value else |t.kids| + 1
  }

  function EnsureSecret(t: Tree): Tree {
    var with, j := WithSecrets(t), SecretsAt(t);
    if HasSecret(with.kids[j].kids) then with
    else with.(kids := with.kids[j := with.kids[j].(kids := with.kids[j].kids + [ENTRY])])
  }

  // ----- places in a tree

  type Path = seq<nat>

  function Follow(t: Tree, keys: seq<string>): Option<Path> {
    if keys == [] then Some([])
    else
      var j := Lookup(t, keys[0], Some(Mapping));
      if j.None? then None
      else
        var rest := Follow(t.kids[j.value], keys[1..]);
        if rest.None? then None else Some([j.value] + rest.value)
  }

  predicate Has(t: Tree, p: Path) { p == [] || (p[0] < |t.kids| && Has(t.kids[p[0]], p[1..])) }

  function At(t: Tree, p: Path): Tree
    requires Has(t, p)
  {
    if p == [] then t else At(t.kids[p[0]], p[1..])
  }

  function Put(t: Tree, p: Path, u: Tree): Tree
    requires Has(t, p)
  {
    if p == [] then u else t.(kids := t.kids[p[0] := Put(t.kids[p[0]], p[1..], u)])
  }

  lemma {:induction false} FollowHas(t: Tree, keys: seq<string>)
    ensures var p := Follow(t, keys); p.Some? ==> |p.value| == |keys| && Has(t, p.value) && (keys != [] ==> At(t, p.value).kind == Mapping)
  {
    if keys != [] {
      var j := Lookup(t, keys[0], Some(Mapping));
      if j.Some? {
        FollowHas(t.kids[j.value], keys[1..]);
        var rest := Follow(t.kids[j.value], keys[1..]);
        if rest.Some? {
          assert ([j.value] + rest.value)[1..] == rest.value;
        }
      }
    }
  }

  // ----- sanitizing

  const CLUSTER_KINDS := {
    "node", "namespace", "persistentvolume", "clusterrole", "clusterrolebinding", "storageclass",
    "customresourcedefinition", "priorityclass", "volumeattachment", "csidriver",
    "mutatingwebhookconfiguration", "validatingwebhookconfiguration"
  }

  /** Which mappings lead to the pod template of a kind; the empty list for kinds without one. */
  function PodKeys(kind: string): seq<string> {
    var k := Text.Lower(kind);
    if k == "pod" then ["spec"]
    else if k in {"deployment", "statefulset", "daemonset", "replicaset", "job"} then ["spec", "template", "spec"]
    else if k == "cronjob" then ["spec", "jobTemplate", "spec", "template", "spec"]
    else []
  }

  datatype Refusal = NotMapping | MissingKind | ClusterKind | MissingMetadata | MissingName

  datatype Verdict =
    | Nothing
    | Refused(why: Refusal)
    | Sanitized(tree: Tree, kind: string, name: string)

  function WithNamespace(m: Tree, ns: string): Tree {
    var j := Lookup(m, "metadata", Some(Mapping));
    if j.None? then m else m.(kids := m.kids[j.value := SetString(m.kids[j.value], "namespace", ns)])
  }

  function WithPullSecret(m: Tree, kind: string): Tree {
    var p := Follow(m, PodKeys(kind));
    if PodKeys(kind) == [] || p.None? then m
    else
      FollowHas(m, PodKeys(kind));
      Put(m, p.value, EnsureSecret(At(m, p.value)))
  }

  function Sanitize(m: Tree, ns: string): Verdict {
    var kind := StringAt(m, "kind");
    var meta := Lookup(m, "metadata", Some(Mapping));
    if m.kind != Mapping then Refused(NotMapping)
    else if kind == "" then Refused(MissingKind)
    else if Text.Lower(kind) in CLUSTER_KINDS then Refused(ClusterKind)
    else if meta.None? then Refused(MissingMetadata)
    else if StringAt(m.kids[meta.value], "name") == "" then Refused(MissingName)
    else Sanitized(WithPullSecret(WithNamespace(m, ns), kind), kind, StringAt(m.kids[meta.value], "name"))
  }

  function SanitizeDoc(root: Tree, ns: string): Verdict {
    if root.kind != Document || |root.kids| == 0 then Nothing else Sanitize(root.kids[0], ns)
  }

  // ----- what the parser guarantees

  /** Keys and values pair up. */
  predicate Paired(t: Tree) {
    (t.kind == Mapping ==> |t.kids| % 2 == 0) && forall i :: 0 <= i < |t.kids| ==> Paired(t.kids[i])
  }

  lemma {:induction false} PairedAt(t: Tree, p: Path)
    requires Paired(t) && Has(t, p)
    ensures Paired(At(t, p))
  {
    if p != [] {
      PairedAt(t.kids[p[0]], p[1..]);
    }
  }

  // ----- lookups after edits

  /** Finding reads only the labels of the children. */
  lemma {:induction false} FindReadsLabels(kids: seq<Tree>, other: seq<Tree>, key: string, want: Option<Kind>, i: nat)
    requires |other| == |kids| && forall k :: 0 <= k < |kids| ==> other[k].Label() == kids[k].Label()
    ensures Find(other, key, want, i) == Find(kids, key, want, i)
    decreases |kids| - i
  {
    if i + 1 < |kids| {
      assert other[i].Label() == kids[i].Label() && other[i + 1].Label() == kids[i + 1].Label();
      FindReadsLabels(kids, other, key, want, i + 2);
    }
  }

  /** A pair put at the end is found exactly when nothing before it is. */
  lemma {:induction false} FindAppended(kids: seq<Tree>, k: Tree, v: Tree, key: string, want: Option<Kind>, i: nat)
    requires |kids| % 2 == 0 && i % 2 == 0 && i <= |kids|
    ensures Find(kids + [k, v], key, want, i)
            == if Find(kids, key, want, i).Some? then Find(kids, key, want, i)
               else if k.value == key && (want.None? || v.kind == want.value) then Some(|kids| + 1) else None
    decreases |kids| - i
  {
    if i + 1 < |kids| {
      FindAppended(kids, k, v, key, want, i + 2);
    }
  }

  /** Turning the value under one key into a string does not move another key. */
  lemma {:induction false} FindOtherKey(kids: seq<Tree>, j: nat, v: Tree, key: string, i: nat)
    requires 0 < j < |kids| && i % 2 == 0 && j % 2 == 1 && kids[j - 1].value != key
    ensures Find(kids[j := v], key, None, i) == Find(kids, key, None, i)
    decreases |kids| - i
  {
    if i + 1 < |kids| {
      FindOtherKey(kids, j, v, key, i + 2);
    }
  }

  lemma {:induction false} FindSameKey(kids: seq<Tree>, key: string, v: Tree, i: nat)
    requires Find(kids, key, None, i).Some? && i % 2 == 0
    ensures var j := Find(kids, key, None, i).value; Find(kids[j := v], key, None, i) == Some(j) && j % 2 == 1
    decreases |kids| - i
  {
    if i + 1 < |kids| && kids[i].value != key {
      FindSameKey(kids, key, v, i + 2);
    }
  }
}
