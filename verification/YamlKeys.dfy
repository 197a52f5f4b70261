/** Sanitizing manifests whose mappings name a key more than once, which the parser's trees may do. */
module YamlKeys {
  import opened Models
  import opened Yaml
  import opened YamlProofs
  import Text

  /** Child j of t is a value under the key. */
  predicate Under(t: Tree, key: string, j: nat) {
    t.kind == Mapping && j % 2 == 1 && j < |t.kids| && t.kids[j - 1].value == key
  }

  predicate Says(t: Tree, ns: string) { Text.Trim(t.value) == Text.Trim(ns) }

  /** Every namespace that any metadata of the manifest gives is ns. */
  ghost predicate EverywhereIn(m: Tree, ns: string) {
    forall i: nat, j: nat :: Under(m, "metadata", i) && Under(m.kids[i], "namespace", j) ==> Says(m.kids[i].kids[j], ns)
  }

  /** Child j of child i is what sanitizing sets: the first namespace in the first metadata that is a mapping. */
  predicate First(m: Tree, i: nat, j: nat) {
    Lookup(m, "metadata", Some(Mapping)) == Some(i) && i < |m.kids| && Lookup(m.kids[i], "namespace", None) == Some(j)
  }

  ghost predicate OthersIn(m: Tree, ns: string) {
    forall i: nat, j: nat :: Under(m, "metadata", i) && Under(m.kids[i], "namespace", j) && !First(m, i, j)
                             ==> Says(m.kids[i].kids[j], ns)
  }

  ghost predicate Once(t: Tree, key: string) { forall i: nat, j: nat :: Under(t, key, i) && Under(t, key, j) ==> i == j }

  lemma {:induction false} FindIsUnder(t: Tree, key: string, want: Option<Kind>, i: nat)
    requires t.kind == Mapping && i % 2 == 0 && Find(t.kids, key, want, i).Some?
    ensures Under(t, key, Find(t.kids, key, want, i).value)
    decreases |t.kids| - i
  {
    if !(t.kids[i].value == key && (want.None? || t.kids[i + 1].kind == want.value)) {
      FindIsUnder(t, key, want, i + 2);
    }
  }

  lemma {:induction false} UnderIsFound(t: Tree, key: string, j: nat, i: nat)
    requires Under(t, key, j) && i % 2 == 0 && i < j
    ensures Find(t.kids, key, None, i).Some?
    decreases |t.kids| - i
  {
    if t.kids[i].value != key {
      UnderIsFound(t, key, j, i + 2);
    }
  }

  /** Adding the pull secret happens under spec. */
  lemma SecretKeepsKeys(n: Tree, kind: string, i: nat)
    requires n.kind == Mapping && Paired(n) && Lookup(n, "metadata", Some(Mapping)).Some?
    ensures var t := WithPullSecret(n, kind);
            (Under(t, "metadata", i) <==> Under(n, "metadata", i)) && (Under(n, "metadata", i) ==> t.kids[i] == n.kids[i])
  {
    SecretStep(n, kind);
    hide WithPullSecret, Paired, EnsureSecret;
    if PodAt(n, kind).Some? {
      var p := PodAt(n, kind).value;
      PodIsUnderSpec(n, kind);
      hide PodAt, PodKeys, Follow;
      PutKeepsKeys(n, p, EnsureSecret(At(n, p)), i);
    }
  }

  lemma PodIsUnderSpec(n: Tree, kind: string)
    requires n.kind == Mapping && PodAt(n, kind).Some?
    ensures var p := PodAt(n, kind).value; p != [] && Under(n, "spec", p[0])
  {
    PodKeysStartAtSpec(kind);
    FollowStart(n, PodKeys(kind));
    hide PodKeys, Follow;
    FindIsUnder(n, "spec", Some(Mapping), 0);
  }

  /** A change inside a value under spec leaves every value under metadata alone. */
  lemma PutKeepsKeys(n: Tree, p: Path, u: Tree, i: nat)
    requires Has(n, p) && p != [] && Under(n, "spec", p[0])
    ensures var t := Put(n, p, u);
            (Under(t, "metadata", i) <==> Under(n, "metadata", i)) && (Under(n, "metadata", i) ==> t.kids[i] == n.kids[i])
  {
    hide Put, Has;
    PutShape(n, p, u);
    if i % 2 == 1 && i < |n.kids| {
      PutKeepsSides(n, p, u, i - 1);
      if i != p[0] {
        PutKeepsSides(n, p, u, i);
      }
    }
  }

  lemma PutShape(n: Tree, p: Path, u: Tree)
    requires Has(n, p) && p != []
    ensures Put(n, p, u).kind == n.kind && |Put(n, p, u).kids| == |n.kids|
  {}

  /** Setting a key writes the first value under it, or puts one at the end. */
  lemma SettingWritesFirst(t: Tree, key: string, value: string, j: nat)
    requires t.kind == Mapping && Paired(t)
    ensures var r, first := SetString(t, key, value), Lookup(t, key, None);
            var at := if first.Some? then first.value else |t.kids| + 1;
            && (Under(r, key, j) <==> Under(t, key, j) || j == at)
            && r.kids[at].value == value && (Under(t, key, j) && j != at ==> r.kids[j] == t.kids[j])
  {
    hide Paired;
    EvenKids(t);
    var first := Lookup(t, key, None);
    if first.Some? {
      FindIsUnder(t, key, None, 0);
      hide Find;
      assert SetString(t, key, value) == t.(kids := t.kids[first.value := AsString(t.kids[first.value], value)]);
    } else {
      hide Find;
      AppendedIsUnder(t, key, Str(value), j);
      assert SetString(t, key, value) == t.(kids := t.kids + [Str(key), Str(value)]);
    }
  }

  lemma AppendedIsUnder(t: Tree, key: string, v: Tree, j: nat)
    requires t.kind == Mapping && |t.kids| % 2 == 0
    ensures var r := t.(kids := t.kids + [Str(key), v]);
            && (Under(r, key, j) <==> Under(t, key, j) || j == |t.kids| + 1)
            && r.kids[|t.kids| + 1] == v && (Under(t, key, j) ==> r.kids[j] == t.kids[j])
  {}

  lemma EvenKids(t: Tree)
    requires t.kind == Mapping && Paired(t)
    ensures |t.kids| % 2 == 0
  {}

  /** Only the first metadata is written. */
  lemma NamespacesAfter(m: Tree, ns: string, i: nat)
    requires Paired(m) && Sanitize(m, ns).Sanitized?
    ensures var t := Sanitize(m, ns).tree;
            && (Under(t, "metadata", i) <==> Under(m, "metadata", i))
            && (Under(m, "metadata", i) ==>
                  if Lookup(m, "metadata", Some(Mapping)) != Some(i) then t.kids[i] == m.kids[i]
                  else m.kids[i].kind == Mapping && Paired(m.kids[i]) && t.kids[i] == SetString(m.kids[i], "namespace", ns))
  {
    SanitizedShape(m, ns);
    hide Sanitize;
    NamespaceStep(m, ns);
    SecretKeepsKeys(WithNamespace(m, ns), StringAt(m, "kind"), i);
    hide WithPullSecret;
    PairedChild(m, Lookup(m, "metadata", Some(Mapping)).value);
    FindIsUnder(m, "metadata", Some(Mapping), 0);
    hide SetString, Paired;
  }

  /** One value under the keys: the first is ns afterwards, every other one is as before. */
  lemma OneNamespaceAfter(m: Tree, ns: string, i: nat, j: nat)
    requires Paired(m) && Sanitize(m, ns).Sanitized?
    ensures var t := Sanitize(m, ns).tree;
            && (Under(m, "metadata", i) && Under(m.kids[i], "namespace", j)
                ==> Under(t, "metadata", i) && Under(t.kids[i], "namespace", j)
                    && (First(m, i, j) || t.kids[i].kids[j] == m.kids[i].kids[j]))
            && (Under(t, "metadata", i) && Under(t.kids[i], "namespace", j)
                ==> Says(t.kids[i].kids[j], ns)
                    || (Under(m, "metadata", i) && Under(m.kids[i], "namespace", j) && !First(m, i, j) && t.kids[i].kids[j] == m.kids[i].kids[j]))
  {
    NamespacesAfter(m, ns, i);
    hide Sanitize, SetString, Paired;
    if Under(m, "metadata", i) && Lookup(m, "metadata", Some(Mapping)) == Some(i) {
      SettingWritesFirst(m.kids[i], "namespace", ns, j);
    }
  }

  /**
   Every namespace in the sanitized manifest is the caller's exactly when all those that sanitizing does not look at
   were already. So it is whenever the manifest names each key once, and need not be otherwise.
   */
  lemma EveryNamespaceIsForced(m: Tree, ns: string)
    requires Paired(m) && Sanitize(m, ns).Sanitized?
    ensures EverywhereIn(Sanitize(m, ns).tree, ns) <==> OthersIn(m, ns)
    ensures Once(m, "metadata") && (forall i: nat :: Under(m, "metadata", i) ==> Once(m.kids[i], "namespace"))
            ==> EverywhereIn(Sanitize(m, ns).tree, ns)
  {
    var t := Sanitize(m, ns).tree;
    if EverywhereIn(t, ns) {
      forall i: nat, j: nat | Under(m, "metadata", i) && Under(m.kids[i], "namespace", j) && !First(m, i, j)
        ensures Says(m.kids[i].kids[j], ns)
      {
        OneNamespaceAfter(m, ns, i, j);
      }
    }
    if OthersIn(m, ns) {
      forall i: nat, j: nat | Under(t, "metadata", i) && Under(t.kids[i], "namespace", j)
        ensures Says(t.kids[i].kids[j], ns)
      {
        OneNamespaceAfter(m, ns, i, j);
      }
    }
    SanitizedShape(m, ns);
    hide Sanitize;
    if Once(m, "metadata") && (forall i: nat :: Under(m, "metadata", i) ==> Once(m.kids[i], "namespace")) {
      OnceIsFirst(m, ns);
    }
  }

  /** Where a key is named once, its value is the first. */
  lemma OnceIsFirst(m: Tree, ns: string)
    requires m.kind == Mapping && Lookup(m, "metadata", Some(Mapping)).Some? && Once(m, "metadata")
    requires forall i: nat :: Under(m, "metadata", i) ==> Once(m.kids[i], "namespace")
    ensures OthersIn(m, ns)
  {
    FindIsUnder(m, "metadata", Some(Mapping), 0);
    forall i: nat, j: nat | Under(m, "metadata", i) && Under(m.kids[i], "namespace", j)
      ensures First(m, i, j)
    {
      UnderIsFound(m.kids[i], "namespace", j, 0);
      FindIsUnder(m.kids[i], "namespace", None, 0);
    }
  }
}
