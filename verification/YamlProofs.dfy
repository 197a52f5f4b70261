/** What sanitizing does to a manifest: it forces the namespace, adds the pull secret, and changes nothing else. */
module YamlProofs {
  import opened Models
  import opened Yaml
  import Text

  // ----- one mapping

  lemma LookupReadsLabels(t: Tree, j: nat, u: Tree, key: string, want: Option<Kind>)
    requires j < |t.kids| && u.Label() == t.kids[j].Label()
    ensures Lookup(t.(kids := t.kids[j := u]), key, want) == Lookup(t, key, want)
    ensures StringAt(t.(kids := t.kids[j := u]), key) == StringAt(t, key)
  {
    FindReadsLabels(t.kids, t.kids[j := u], key, want, 0);
    FindReadsLabels(t.kids, t.kids[j := u], key, None, 0);
  }

  lemma SetStringSets(t: Tree, key: string, value: string)
    requires t.kind == Mapping && Paired(t)
    ensures var s := SetString(t, key, value);
            && StringAt(s, key) == Text.Trim(value) && SetString(s, key, value) == s
            && Lookup(s, key, None).Some? && s.kids[Lookup(s, key, None).value].Label() == (Scalar, STR, value)
  {
    var j := Lookup(t, key, None);
    if j.Some? {
      FindSameKey(t.kids, key, AsString(t.kids[j.value], value), 0);
    } else {
      FindAppended(t.kids, Str(key), Str(value), key, None, 0);
    }
  }

  lemma SetStringKeepsOthers(t: Tree, key: string, value: string, other: string)
    requires t.kind == Mapping && Paired(t) && other != key
    ensures StringAt(SetString(t, key, value), other) == StringAt(t, other)
  {
    var j := Lookup(t, key, None);
    if j.Some? {
      FindSameKey(t.kids, key, t.kids[j.value], 0);
      FindOtherKey(t.kids, j.value, AsString(t.kids[j.value], value), other, 0);
      var k := Lookup(t, other, None);
      assert k.Some? ==> k.value != j.value;
    } else {
      FindAppended(t.kids, Str(key), Str(value), other, None, 0);
    }
  }

  lemma SetStringPaired(t: Tree, key: string, value: string)
    requires t.kind == Mapping && Paired(t)
    ensures Paired(SetString(t, key, value)) && SetString(t, key, value).Label() == t.Label()
  {}

  lemma WithSecretsFinds(t: Tree)
    requires t.kind == Mapping && Paired(t)
    ensures var s := WithSecrets(t);
            && Paired(s) && s.Label() == t.Label() && SecretsAt(t) < |s.kids| && SecretsAt(s) == SecretsAt(t)
            && Lookup(s, SECRETS, Some(Sequence)) == Some(SecretsAt(t)) && s.kids[SecretsAt(t)].kind == Sequence
            && (Lookup(t, SECRETS, Some(Sequence)).None? ==> s.kids[SecretsAt(t)].kids == [])
  {
    FindAppended(t.kids, Str(SECRETS), Tree(Sequence, "!!seq", "", []), SECRETS, Some(Sequence), 0);
  }

  lemma EntryIsSecret(items: seq<Tree>)
    ensures HasSecret(items + [ENTRY]) && Paired(ENTRY)
  {
    assert Find(ENTRY.kids, "name", None, 0) == Some(1);
    Text.TrimmedIsFixed(SECRET);
    assert StringAt((items + [ENTRY])[|items|], "name") == SECRET;
  }

  lemma EnsuredList(t: Tree)
    requires t.kind == Mapping && Paired(t)
    ensures var s := EnsureSecret(t);
            && Paired(s) && s.Label() == t.Label()
            && Lookup(s, SECRETS, Some(Sequence)) == Some(SecretsAt(t)) && HasSecret(s.kids[SecretsAt(t)].kids)
  {
    hide Lookup, WithSecrets, SecretsAt, Find, StringAt;
    WithSecretsFinds(t);
    var with, j := WithSecrets(t), SecretsAt(t);
    if !HasSecret(with.kids[j].kids) {
      var list := with.kids[j].(kids := with.kids[j].kids + [ENTRY]);
      EntryIsSecret(with.kids[j].kids);
      LookupReadsLabels(with, j, list, SECRETS, Some(Sequence));
      PairedInside(with, j, list);
    }
  }

  /** The secret is there afterwards; ensuring it again changes nothing. */
  lemma EnsureSecretEnsures(t: Tree)
    requires t.kind == Mapping && Paired(t)
    ensures var s := EnsureSecret(t);
            && Paired(s) && s.Label() == t.Label() && EnsureSecret(s) == s
            && Lookup(s, SECRETS, Some(Sequence)).Some? && HasSecret(s.kids[Lookup(s, SECRETS, Some(Sequence)).value].kids)
  {
    EnsuredList(t);
    var s := EnsureSecret(t);
    hide EnsureSecret, Lookup, HasSecret, Paired;
    AlreadyEnsured(s);
  }

  lemma AlreadyEnsured(s: Tree)
    requires Lookup(s, SECRETS, Some(Sequence)).Some? && HasSecret(s.kids[Lookup(s, SECRETS, Some(Sequence)).value].kids)
    ensures EnsureSecret(s) == s
  {
    hide Lookup, HasSecret;
  }

  lemma PairedInside(t: Tree, j: nat, u: Tree)
    requires Paired(t) && j < |t.kids| && Paired(u)
    ensures Paired(t.(kids := t.kids[j := u]))
  {}

  /** The items of the list of secrets before: none when there is no list. */
  function Secrets(t: Tree): seq<Tree> {
    var j := Lookup(t, SECRETS, Some(Sequence));
    if j.Some? then t.kids[j.value].kids else []
  }

  /** At most one entry is added, and only when none named the secret. */
  lemma AtMostOneEntry(t: Tree)
    requires t.kind == Mapping && Paired(t)
    ensures Secrets(EnsureSecret(t)) == if HasSecret(Secrets(t)) then Secrets(t) else Secrets(t) + [ENTRY]
  {
    WithSecretsFinds(t);
    var with, j := WithSecrets(t), SecretsAt(t);
    if !HasSecret(with.kids[j].kids) {
      LookupReadsLabels(with, j, with.kids[j].(kids := with.kids[j].kids + [ENTRY]), SECRETS, Some(Sequence));
    }
  }

  // ----- the way to the pod template

  lemma {:induction false} FollowAfterPut(t: Tree, keys: seq<string>, u: Tree)
    requires Follow(t, keys).Some? && Has(t, Follow(t, keys).value)
    requires u.Label() == At(t, Follow(t, keys).value).Label()
    ensures var p := Follow(t, keys).value;
            && Follow(Put(t, p, u), keys) == Some(p) && Put(t, p, u).Label() == t.Label()
            && Has(Put(t, p, u), p) && At(Put(t, p, u), p) == u
  {
    if keys != [] {
      var j := Lookup(t, keys[0], Some(Mapping)).value;
      var rest := Follow(t.kids[j], keys[1..]).value;
      assert ([j] + rest)[1..] == rest;
      FollowAfterPut(t.kids[j], keys[1..], u);
      LookupReadsLabels(t, j, Put(t.kids[j], rest, u), keys[0], Some(Mapping));
    }
  }

  lemma {:induction false} PutPaired(t: Tree, p: Path, u: Tree)
    requires Paired(t) && Has(t, p) && Paired(u)
    ensures Paired(Put(t, p, u))
  {
    if p != [] {
      PutPaired(t.kids[p[0]], p[1..], u);
    }
  }

  lemma {:induction false} PutTwice(t: Tree, p: Path, u: Tree, v: Tree)
    requires Has(t, p) && Has(Put(t, p, u), p)
    ensures Put(Put(t, p, u), p, v) == Put(t, p, v)
  {
    if p != [] {
      PutTwice(t.kids[p[0]], p[1..], u, v);
    }
  }

  lemma {:induction false} PutSame(t: Tree, p: Path)
    requires Has(t, p)
    ensures Put(t, p, At(t, p)) == t
  {
    if p != [] {
      PutSame(t.kids[p[0]], p[1..]);
    }
  }

  // ----- the whole manifest

  lemma PodKeysStartAtSpec(kind: string)
    ensures PodKeys(kind) != [] ==> PodKeys(kind)[0] == "spec"
  {}

  /** What a lookup finds tells the keys apart. */
  lemma DifferentKeys(t: Tree, key: string, other: string, want: Option<Kind>)
    requires key != other && Lookup(t, key, want).Some? && Lookup(t, other, want).Some?
    ensures Lookup(t, key, want).value != Lookup(t, other, want).value
  {}

  /** Setting the namespace is seen nowhere but in the metadata. */
  lemma NamespaceStep(m: Tree, ns: string)
    requires m.kind == Mapping && Paired(m) && Lookup(m, "metadata", Some(Mapping)).Some?
    ensures var j := Lookup(m, "metadata", Some(Mapping)).value;
            var n := WithNamespace(m, ns);
            && n == m.(kids := m.kids[j := SetString(m.kids[j], "namespace", ns)])
            && Paired(n) && n.Label() == m.Label() && Lookup(n, "metadata", Some(Mapping)) == Some(j)
            && StringAt(n, "kind") == StringAt(m, "kind")
  {
    var j := Lookup(m, "metadata", Some(Mapping)).value;
    SetStringPaired(m.kids[j], "namespace", ns);
    var meta := SetString(m.kids[j], "namespace", ns);
    LookupReadsLabels(m, j, meta, "metadata", Some(Mapping));
    LookupReadsLabels(m, j, meta, "kind", None);
    PairedInside(m, j, meta);
  }

  lemma NamespaceKeepsWay(m: Tree, ns: string, keys: seq<string>)
    requires m.kind == Mapping && Paired(m) && Lookup(m, "metadata", Some(Mapping)).Some? && keys != [] && keys[0] != "metadata"
    ensures var n := WithNamespace(m, ns);
            && Follow(n, keys) == Follow(m, keys)
            && (Follow(m, keys).Some? ==> var p := Follow(m, keys).value; Has(m, p) && Has(n, p) && At(n, p) == At(m, p))
  {
    NamespaceStep(m, ns);
    FollowHas(m, keys);
    FollowHas(WithNamespace(m, ns), keys);
    var j := Lookup(m, "metadata", Some(Mapping)).value;
    LookupReadsLabels(m, j, SetString(m.kids[j], "namespace", ns), keys[0], Some(Mapping));
    if Lookup(m, keys[0], Some(Mapping)).Some? {
      DifferentKeys(m, "metadata", keys[0], Some(Mapping));
    }
  }

  lemma {:induction false} PutKeepsSides(t: Tree, p: Path, u: Tree, j: nat)
    requires Has(t, p) && p != [] && j < |t.kids| && j != p[0]
    ensures Put(t, p, u).kids[j] == t.kids[j] && |Put(t, p, u).kids| == |t.kids|
  {}

  lemma FollowStart(t: Tree, keys: seq<string>)
    requires keys != [] && Follow(t, keys).Some?
    ensures var p := Follow(t, keys).value; p != [] && Lookup(t, keys[0], Some(Mapping)) == Some(p[0])
  {}

  lemma {:induction false} PutKeepsLabels(t: Tree, p: Path, u: Tree)
    requires Has(t, p) && p != [] && u.Label() == At(t, p).Label()
    ensures Put(t, p, u).kids[p[0]].Label() == t.kids[p[0]].Label() && p[0] < |t.kids|
  {}

  lemma PutKeepsLookup(t: Tree, p: Path, u: Tree, key: string, want: Option<Kind>)
    requires Has(t, p) && p != [] && u.Label() == At(t, p).Label()
    ensures Lookup(Put(t, p, u), key, want) == Lookup(t, key, want) && StringAt(Put(t, p, u), key) == StringAt(t, key)
  {
    PutKeepsLabels(t, p, u);
    LookupReadsLabels(t, p[0], Put(t.kids[p[0]], p[1..], u), key, want);
  }

  /** Where the pull secret goes. */
  function PodAt(m: Tree, kind: string): Option<Path> { if PodKeys(kind) == [] then None else Follow(m, PodKeys(kind)) }

  /** Adding the pull secret is seen nowhere but in the pod template. */
  lemma SecretStep(m: Tree, kind: string)
    requires m.kind == Mapping && Paired(m) && Lookup(m, "metadata", Some(Mapping)).Some?
    ensures var j := Lookup(m, "metadata", Some(Mapping)).value;
            var n := WithPullSecret(m, kind);
            && Paired(n) && n.Label() == m.Label() && Lookup(n, "metadata", Some(Mapping)) == Some(j) && n.kids[j] == m.kids[j]
            && StringAt(n, "kind") == StringAt(m, "kind") && PodAt(n, kind) == PodAt(m, kind)
            && (if PodAt(m, kind).None? then n == m
                else
                  var p := PodAt(m, kind).value;
                  && Has(m, p) && Has(n, p) && At(m, p).kind == Mapping
                  && n == Put(m, p, EnsureSecret(At(m, p))) && At(n, p) == EnsureSecret(At(m, p)))
  {
    var keys := PodKeys(kind);
    if keys != [] && Follow(m, keys).Some? {
      var p := Follow(m, keys).value;
      FollowHas(m, keys);
      PodKeysStartAtSpec(kind);
      PairedAt(m, p);
      EnsureSecretEnsures(At(m, p));
      FollowAfterPut(m, keys, EnsureSecret(At(m, p)));
      PutPaired(m, p, EnsureSecret(At(m, p)));
      FollowStart(m, keys);
      DifferentKeys(m, "metadata", "spec", Some(Mapping));
      PutKeepsSides(m, p, EnsureSecret(At(m, p)), Lookup(m, "metadata", Some(Mapping)).value);
      PutKeepsLookup(m, p, EnsureSecret(At(m, p)), "metadata", Some(Mapping));
      PutKeepsLookup(m, p, EnsureSecret(At(m, p)), "kind", None);
    }
  }

  lemma SanitizedShape(m: Tree, ns: string)
    requires Paired(m) && Sanitize(m, ns).Sanitized?
    ensures m.kind == Mapping && Lookup(m, "metadata", Some(Mapping)).Some?
    ensures var v := Sanitize(m, ns);
            v.kind == StringAt(m, "kind") && v.tree == WithPullSecret(WithNamespace(m, ns), v.kind)
            && Lookup(m, "metadata", Some(Mapping)).value < |m.kids|
            && m.kids[Lookup(m, "metadata", Some(Mapping)).value].kind == Mapping
            && v.name == StringAt(m.kids[Lookup(m, "metadata", Some(Mapping)).value], "name")
  {
    hide Paired, Find, WithPullSecret, WithNamespace, StringAt, Lookup;
    MetadataIsMapping(m);
  }

  lemma MetadataIsMapping(m: Tree)
    ensures Lookup(m, "metadata", Some(Mapping)).Some? ==>
      m.kind == Mapping && Lookup(m, "metadata", Some(Mapping)).value < |m.kids| && m.kids[Lookup(m, "metadata", Some(Mapping)).value].kind == Mapping
  {}

  function Metadata(m: Tree): Tree
    requires Lookup(m, "metadata", Some(Mapping)).Some?
  {
    m.kids[Lookup(m, "metadata", Some(Mapping)).value]
  }

  /** Whatever the manifest said, the namespace is the caller's; kind and name are what they were. */
  lemma NamespaceIsForced(m: Tree, ns: string)
    requires Paired(m) && Sanitize(m, ns).Sanitized?
    ensures var v := Sanitize(m, ns);
            && Lookup(v.tree, "metadata", Some(Mapping)).Some?
            && StringAt(Metadata(v.tree), "namespace") == Text.Trim(ns)
            && StringAt(v.tree, "kind") == StringAt(m, "kind") && StringAt(Metadata(v.tree), "name") == StringAt(Metadata(m), "name")
  {
    SanitizedShape(m, ns);
    hide Sanitize;
    NamespaceStep(m, ns);
    SecretStep(WithNamespace(m, ns), StringAt(m, "kind"));
    SetStringSets(Metadata(m), "namespace", ns);
    SetStringKeepsOthers(Metadata(m), "namespace", ns, "name");
    hide WithPullSecret, WithNamespace, SetString;
  }

  lemma PodBefore(m: Tree, ns: string)
    requires Paired(m) && Sanitize(m, ns).Sanitized?
    ensures var kind := StringAt(m, "kind");
            var n := WithNamespace(m, ns);
            && PodAt(n, kind) == PodAt(m, kind)
            && (PodAt(m, kind).Some? ==>
                  var p := PodAt(m, kind).value; Has(m, p) && Has(n, p) && At(n, p) == At(m, p))
  {
    SanitizedShape(m, ns);
    var kind := StringAt(m, "kind");
    PodKeysStartAtSpec(kind);
    hide Sanitize, PodKeys;
    if PodKeys(kind) != [] {
      NamespaceKeepsWay(m, ns, PodKeys(kind));
    }
  }

  /** Every pod template has the pull secret, in the place where the template was, with at most one entry added. */
  lemma PullSecretIsPresent(m: Tree, ns: string)
    requires Paired(m) && Sanitize(m, ns).Sanitized?
    ensures var t, kind := Sanitize(m, ns).tree, StringAt(m, "kind");
            && PodAt(t, kind) == PodAt(m, kind)
            && (PodAt(m, kind).Some? ==>
                  var p := PodAt(m, kind).value;
                  && Has(m, p) && Has(t, p) && HasSecret(Secrets(At(t, p)))
                  && Secrets(At(t, p)) == if HasSecret(Secrets(At(m, p))) then Secrets(At(m, p)) else Secrets(At(m, p)) + [ENTRY])
  {
    SanitizedShape(m, ns);
    PodBefore(m, ns);
    hide Sanitize;
    NamespaceStep(m, ns);
    SecretStep(WithNamespace(m, ns), StringAt(m, "kind"));
    hide WithPullSecret, WithNamespace, PodAt;
    if PodAt(m, StringAt(m, "kind")).Some? {
      var spec := At(m, PodAt(m, StringAt(m, "kind")).value);
      PairedAt(m, PodAt(m, StringAt(m, "kind")).value);
      AtMostOneEntry(spec);
      EntryIsSecret(Secrets(spec));
    }
  }

  /** Sanitizing what was sanitized changes nothing. */
  lemma SanitizeIsIdempotent(m: Tree, ns: string)
    requires Paired(m) && Sanitize(m, ns).Sanitized?
    ensures Sanitize(Sanitize(m, ns).tree, ns) == Sanitize(m, ns)
  {
    var v := Sanitize(m, ns);
    SanitizedShape(m, ns);
    NamespaceIsForced(m, ns);
    TreeStaysMapping(m, ns);
    NamespaceStays(m, ns);
    SecretStays(m, ns);
    hide WithPullSecret, WithNamespace, StringAt, Lookup;
  }

  lemma TreeStaysMapping(m: Tree, ns: string)
    requires Paired(m) && Sanitize(m, ns).Sanitized?
    ensures Sanitize(m, ns).tree.kind == Mapping && Paired(Sanitize(m, ns).tree)
  {
    SanitizedShape(m, ns);
    hide Sanitize;
    NamespaceStep(m, ns);
    SecretStep(WithNamespace(m, ns), StringAt(m, "kind"));
    hide WithPullSecret, WithNamespace;
  }

  lemma SetAgain(t: Tree, j: nat, meta: Tree, ns: string)
    requires Lookup(t, "metadata", Some(Mapping)) == Some(j) && j < |t.kids|
    requires meta.kind == Mapping && Paired(meta) && t.kids[j] == SetString(meta, "namespace", ns)
    ensures WithNamespace(t, ns) == t
  {
    SetStringSets(meta, "namespace", ns);
    hide SetString, Lookup, Paired, StringAt;
    assert t.kids[j := t.kids[j]] == t.kids;
  }

  lemma NamespaceStays(m: Tree, ns: string)
    requires Paired(m) && Sanitize(m, ns).Sanitized?
    ensures WithNamespace(Sanitize(m, ns).tree, ns) == Sanitize(m, ns).tree
  {
    SanitizedShape(m, ns);
    hide Sanitize, WithPullSecret, WithNamespace, SetString, StringAt, Find, Paired;
    NamespaceStep(m, ns);
    SecretStep(WithNamespace(m, ns), StringAt(m, "kind"));
    var j := Lookup(m, "metadata", Some(Mapping)).value;
    PairedChild(m, j);
    SetAgain(Sanitize(m, ns).tree, j, m.kids[j], ns);
  }

  lemma PairedChild(t: Tree, j: nat)
    requires Paired(t) && j < |t.kids|
    ensures Paired(t.kids[j])
  {}

  lemma SecretStays(m: Tree, ns: string)
    requires Paired(m) && Sanitize(m, ns).Sanitized?
    ensures WithPullSecret(Sanitize(m, ns).tree, StringAt(m, "kind")) == Sanitize(m, ns).tree
  {
    SanitizedShape(m, ns);
    TreeStaysMapping(m, ns);
    var t, kind := Sanitize(m, ns).tree, StringAt(m, "kind");
    hide Sanitize;
    NamespaceStep(m, ns);
    var n := WithNamespace(m, ns);
    SecretStep(n, kind);
    SecretStep(t, kind);
    hide WithPullSecret, WithNamespace, PodAt;
    if PodAt(n, kind).Some? {
      var p := PodAt(n, kind).value;
      PairedAt(n, p);
      EnsureSecretEnsures(At(n, p));
      PutSame(t, p);
    }
  }

  // ----- nothing else changes

  /** Every place of t is a place of s with the same label, except the place but, whose label may differ. */
  ghost predicate Preserves(t: Tree, s: Tree, but: Option<Path>) {
    forall p :: Has(t, p) ==> Has(s, p) && (Some(p) != but ==> At(s, p).Label() == At(t, p).Label())
  }

  lemma PreservesAt(t: Tree, s: Tree, but: Option<Path>, p: Path)
    requires Preserves(t, s, but) && Has(t, p)
    ensures Has(s, p) && (Some(p) != but ==> At(s, p).Label() == At(t, p).Label())
  {}

  lemma PreservesItself(t: Tree)
    ensures Preserves(t, t, None)
  {}

  lemma PreservesChain(t: Tree, s: Tree, r: Tree, but: Option<Path>)
    requires Preserves(t, s, but) && Preserves(s, r, None)
    ensures Preserves(t, r, but)
  {
    forall p | Has(t, p) ensures Has(r, p) && (Some(p) != but ==> At(r, p).Label() == At(t, p).Label()) {
      PreservesAt(t, s, but, p);
      PreservesAt(s, r, None, p);
    }
  }

  /** Replacing one child and adding others at the end. */
  lemma PreservesInside(t: Tree, s: Tree, j: nat, but: Option<Path>)
    requires s.Label() == t.Label() && |t.kids| <= |s.kids| && j < |t.kids|
    requires forall i :: 0 <= i < |t.kids| && i != j ==> s.kids[i] == t.kids[i]
    requires Preserves(t.kids[j], s.kids[j], but)
    ensures Preserves(t, s, if but.Some? then Some([j] + but.value) else None)
  {
    var lifted := if but.Some? then Some([j] + but.value) else None;
    forall p | Has(t, p) ensures Has(s, p) && (Some(p) != lifted ==> At(s, p).Label() == At(t, p).Label()) {
      if p != [] && p[0] == j {
        PreservesAt(t.kids[j], s.kids[j], but, p[1..]);
        assert p == [j] + p[1..];
      }
    }
  }

  lemma PreservesAppended(t: Tree, more: seq<Tree>)
    ensures Preserves(t, t.(kids := t.kids + more), None)
  {
    var s := t.(kids := t.kids + more);
    forall p | Has(t, p) ensures Has(s, p) && At(s, p).Label() == At(t, p).Label() {
      assert p != [] ==> s.kids[p[0]] == t.kids[p[0]];
    }
  }

  lemma {:induction false} PreservesPut(t: Tree, p: Path, u: Tree)
    requires Has(t, p) && Preserves(At(t, p), u, None)
    ensures Preserves(t, Put(t, p, u), None)
  {
    if p != [] {
      PreservesPut(t.kids[p[0]], p[1..], u);
      PreservesInside(t, Put(t, p, u), p[0], None);
    }
  }

  lemma RelabelPreserves(t: Tree, value: string)
    ensures Preserves(t, AsString(t, value), Some([]))
  {
    forall p | Has(t, p) ensures Has(AsString(t, value), p) && (p != [] ==> At(AsString(t, value), p).Label() == At(t, p).Label()) {}
  }

  lemma SetStringPreserves(t: Tree, key: string, value: string)
    requires t.kind == Mapping
    ensures var j := Lookup(t, key, None); Preserves(t, SetString(t, key, value), if j.Some? then Some([j.value]) else None)
  {
    var j := Lookup(t, key, None);
    if j.Some? {
      RelabelPreserves(t.kids[j.value], value);
      PreservesInside(t, SetString(t, key, value), j.value, Some([]));
      assert [j.value] + [] == [j.value];
    } else {
      PreservesAppended(t, [Str(key), Str(value)]);
    }
  }

  lemma EnsureSecretPreserves(t: Tree)
    requires t.kind == Mapping && Paired(t)
    ensures Preserves(t, EnsureSecret(t), None)
  {
    var with, j := WithSecrets(t), SecretsAt(t);
    WithSecretsFinds(t);
    PreservesItself(t);
    PreservesAppended(t, [Str(SECRETS), Tree(Sequence, "!!seq", "", [])]);
    if !HasSecret(with.kids[j].kids) {
      PreservesAppended(with.kids[j], [ENTRY]);
      PreservesInside(with, EnsureSecret(t), j, None);
      PreservesChain(t, with, EnsureSecret(t), None);
    }
  }

  /** The value node of metadata.namespace, if there is one. */
  function NamespaceAt(m: Tree): Option<Path>
    requires Lookup(m, "metadata", Some(Mapping)).Some?
  {
    var j := Lookup(m, "metadata", Some(Mapping)).value;
    var k := Lookup(m.kids[j], "namespace", None);
    if k.None? then None else Some([j, k.value])
  }

  lemma NamespacePreserves(m: Tree, ns: string)
    requires m.kind == Mapping && Paired(m) && Lookup(m, "metadata", Some(Mapping)).Some?
    ensures var n := WithNamespace(m, ns);
            Preserves(m, n, NamespaceAt(m)) && n.kind == Mapping && Paired(n) && Lookup(n, "metadata", Some(Mapping)).Some?
  {
    NamespaceStep(m, ns);
    hide Preserves, Find, StringAt, SetString;
    var j := Lookup(m, "metadata", Some(Mapping)).value;
    SetStringPreserves(m.kids[j], "namespace", ns);
    var k := Lookup(m.kids[j], "namespace", None);
    PreservesInside(m, WithNamespace(m, ns), j, if k.Some? then Some([k.value]) else None);
    assert k.Some? ==> [j] + [k.value] == [j, k.value];
  }

  lemma SecretPreserves(n: Tree, kind: string)
    requires n.kind == Mapping && Paired(n) && Lookup(n, "metadata", Some(Mapping)).Some?
    ensures Preserves(n, WithPullSecret(n, kind), None)
  {
    SecretStep(n, kind);
    hide Preserves, Find, StringAt, EnsureSecret, WithPullSecret, PodKeys;
    PreservesItself(n);
    if PodAt(n, kind).Some? {
      var p := PodAt(n, kind).value;
      PairedAt(n, p);
      EnsureSecretPreserves(At(n, p));
      PreservesPut(n, p, EnsureSecret(At(n, p)));
    }
  }

  /** Everything in the manifest is still there, at the same place, with the same kind, tag and value, except the namespace. */
  lemma NothingElseChanges(m: Tree, ns: string)
    requires Paired(m) && Sanitize(m, ns).Sanitized?
    ensures Lookup(m, "metadata", Some(Mapping)).Some? && Preserves(m, Sanitize(m, ns).tree, NamespaceAt(m))
  {
    SanitizedShape(m, ns);
    var n, kind := WithNamespace(m, ns), StringAt(m, "kind");
    NamespacePreserves(m, ns);
    SecretPreserves(n, kind);
    hide Sanitize, Preserves, Lookup, StringAt, WithNamespace, WithPullSecret, NamespaceAt;
    PreservesChain(m, n, Sanitize(m, ns).tree, NamespaceAt(m));
  }

  function Size(t: Tree): nat { 1 + Sizes(t.kids) }

  function Sizes(kids: seq<Tree>): nat { if kids == [] then 0 else Size(kids[0]) + Sizes(kids[1..]) }

  lemma {:induction false} SizesConcat(a: seq<Tree>, b: seq<Tree>)
    ensures Sizes(a + b) == Sizes(a) + Sizes(b)
  {
    if a == [] {
      assert a + b == b;
    } else {
      assert (a + b)[1..] == a[1..] + b;
      SizesConcat(a[1..], b);
    }
  }

  lemma SizesUpdate(kids: seq<Tree>, j: nat, u: Tree)
    requires j < |kids|
    ensures Sizes(kids[j := u]) == Sizes(kids) - Size(kids[j]) + Size(u)
  {
    assert kids == kids[..j] + ([kids[j]] + kids[j + 1..]);
    assert kids[j := u] == kids[..j] + ([u] + kids[j + 1..]);
    SizesConcat(kids[..j], [kids[j]] + kids[j + 1..]);
    SizesConcat(kids[..j], [u] + kids[j + 1..]);
    SizesConcat([kids[j]], kids[j + 1..]);
    SizesConcat([u], kids[j + 1..]);
  }

  lemma {:induction false} SizePut(t: Tree, p: Path, u: Tree)
    requires Has(t, p)
    ensures Size(Put(t, p, u)) == Size(t) - Size(At(t, p)) + Size(u)
  {
    if p != [] {
      SizePut(t.kids[p[0]], p[1..], u);
      SizesUpdate(t.kids, p[0], Put(t.kids[p[0]], p[1..], u));
    }
  }

  lemma SetStringSize(t: Tree, key: string, value: string)
    requires t.kind == Mapping
    ensures Size(SetString(t, key, value)) == Size(t) + if Lookup(t, key, None).None? then 2 else 0
  {
    var j := Lookup(t, key, None);
    if j.Some? {
      SizesUpdate(t.kids, j.value, AsString(t.kids[j.value], value));
    } else {
      SizesConcat(t.kids, [Str(key), Str(value)]);
      PairSize(Str(key), Str(value));
    }
  }

  lemma PairSize(a: Tree, b: Tree)
    ensures Sizes([a, b]) == Size(a) + Size(b) && Sizes([a]) == Size(a)
  {
    assert [a, b][1..] == [b] && [b][1..] == [] && [a][1..] == [];
    assert Sizes([b]) == Size(b) + Sizes([b][1..]);
  }

  lemma EntrySize()
    ensures Size(ENTRY) == 3 && Size(Tree(Sequence, "!!seq", "", [])) == 1 && Size(Str(SECRETS)) == 1
  {
    PairSize(Str("name"), Str(SECRET));
  }

  function Added(t: Tree): nat {
    (if Lookup(t, SECRETS, Some(Sequence)).None? then 2 else 0) + if HasSecret(Secrets(t)) then 0 else 3
  }

  lemma EnsureSecretSize(t: Tree)
    requires t.kind == Mapping && Paired(t)
    ensures Size(EnsureSecret(t)) == Size(t) + Added(t)
  {
    WithSecretsFinds(t);
    EntrySize();
    var with, j := WithSecrets(t), SecretsAt(t);
    SizesConcat(t.kids, [Str(SECRETS), Tree(Sequence, "!!seq", "", [])]);
    PairSize(Str(SECRETS), Tree(Sequence, "!!seq", "", []));
    hide Paired, Find;
    assert Secrets(t) == with.kids[j].kids;
    if !HasSecret(with.kids[j].kids) {
      var list := with.kids[j].(kids := with.kids[j].kids + [ENTRY]);
      SizesConcat(with.kids[j].kids, [ENTRY]);
      PairSize(ENTRY, ENTRY);
      SizesUpdate(with.kids, j, list);
    }
  }

  /** And nothing else is added: the number of nodes grows by the missing parts only. */
  lemma OnlyMissingPartsAreAdded(m: Tree, ns: string)
    requires Paired(m) && Sanitize(m, ns).Sanitized?
    ensures var pod := PodAt(m, StringAt(m, "kind"));
            && Lookup(m, "metadata", Some(Mapping)).Some? && (pod.Some? ==> Has(m, pod.value))
            && Size(Sanitize(m, ns).tree)
               == Size(m) + (if NamespaceAt(m).None? then 2 else 0) + if pod.Some? then Added(At(m, pod.value)) else 0
  {
    SanitizedShape(m, ns);
    PodBefore(m, ns);
    var n, kind := WithNamespace(m, ns), StringAt(m, "kind");
    hide Sanitize, Size;
    NamespaceStep(m, ns);
    SecretStep(n, kind);
    var j := Lookup(m, "metadata", Some(Mapping)).value;
    SetStringSize(m.kids[j], "namespace", ns);
    ChildSize(m, j, SetString(m.kids[j], "namespace", ns));
    if PodAt(n, kind).Some? {
      var p := PodAt(n, kind).value;
      PairedAt(n, p);
      EnsureSecretSize(At(n, p));
      SizePut(n, p, EnsureSecret(At(n, p)));
    }
  }

  lemma ChildSize(t: Tree, j: nat, u: Tree)
    requires j < |t.kids|
    ensures Size(t.(kids := t.kids[j := u])) == Size(t) - Size(t.kids[j]) + Size(u)
  {
    SizesUpdate(t.kids, j, u);
  }
}
