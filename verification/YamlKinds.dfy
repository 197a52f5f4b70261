/** Kind by kind: what is refused, and where the pull secret goes. */
module YamlKinds {
  import opened Models
  import opened Yaml
  import opened YamlProofs
  import Text

  /** The first mapping under a key. */
  function Child(t: Option<Tree>, key: string): Option<Tree> {
    if t.None? || Lookup(t.value, key, Some(Mapping)).None? then None
    else Some(t.value.kids[Lookup(t.value, key, Some(Mapping)).value])
  }

  function Chain(t: Option<Tree>, keys: seq<string>): Option<Tree>
    decreases |keys|
  {
    if keys == [] then t else Chain(Child(t, keys[0]), keys[1..])
  }

  lemma {:induction false} ChainOfNothing(keys: seq<string>)
    ensures Chain(None, keys) == None
  {
    if keys != [] {
      ChainOfNothing(keys[1..]);
    }
  }

  lemma {:induction false} FollowIsChain(t: Tree, keys: seq<string>)
    ensures var p := Follow(t, keys);
            if p.Some? then Has(t, p.value) && Chain(Some(t), keys) == Some(At(t, p.value)) else Chain(Some(t), keys) == None
    decreases |keys|
  {
    FollowHas(t, keys);
    if keys != [] {
      var j := Lookup(t, keys[0], Some(Mapping));
      if j.Some? {
        FollowIsChain(t.kids[j.value], keys[1..]);
        var rest := Follow(t.kids[j.value], keys[1..]);
        if rest.Some? {
          assert ([j.value] + rest.value)[1..] == rest.value;
        }
      } else {
        ChainOfNothing(keys[1..]);
      }
    }
  }

  function InPod(t: Tree): Option<Tree> { Child(Some(t), "spec") }

  function InTemplate(t: Tree): Option<Tree> { Child(Child(Child(Some(t), "spec"), "template"), "spec") }

  function InJobTemplate(t: Tree): Option<Tree> {
    Child(Child(Child(Child(Child(Some(t), "spec"), "jobTemplate"), "spec"), "template"), "spec")
  }

  lemma ChainsWrittenOut(t: Tree)
    ensures Chain(Some(t), ["spec"]) == InPod(t)
    ensures Chain(Some(t), ["spec", "template", "spec"]) == InTemplate(t)
    ensures Chain(Some(t), ["spec", "jobTemplate", "spec", "template", "spec"]) == InJobTemplate(t)
  {
    hide Child;
    ChainOne(Some(t), "spec", []);
    ChainThree(Some(t));
    ChainOne(Some(t), "spec", ["jobTemplate", "spec", "template", "spec"]);
    ChainOne(Child(Some(t), "spec"), "jobTemplate", ["spec", "template", "spec"]);
    ChainThree(Child(Child(Some(t), "spec"), "jobTemplate"));
    assert ["spec"] + [] == ["spec"];
    assert ["spec"] + ["jobTemplate", "spec", "template", "spec"] == ["spec", "jobTemplate", "spec", "template", "spec"];
    assert ["jobTemplate"] + ["spec", "template", "spec"] == ["jobTemplate", "spec", "template", "spec"];
  }

  lemma ChainThree(t: Option<Tree>)
    ensures Chain(t, ["spec", "template", "spec"]) == Child(Child(Child(t, "spec"), "template"), "spec")
  {
    hide Child;
    ChainOne(t, "spec", ["template", "spec"]);
    ChainOne(Child(t, "spec"), "template", ["spec"]);
    ChainOne(Child(Child(t, "spec"), "template"), "spec", []);
    assert ["spec"] + ["template", "spec"] == ["spec", "template", "spec"];
    assert ["template"] + ["spec"] == ["template", "spec"] && ["spec"] + [] == ["spec"];
  }

  lemma ChainOne(t: Option<Tree>, key: string, rest: seq<string>)
    ensures Chain(t, [key] + rest) == Chain(Child(t, key), rest)
  {
    assert ([key] + rest)[1..] == rest;
  }

  /** A pod template whose list of pull secrets has an entry for the registry. */
  predicate NamesRegistry(pod: Tree) {
    var j := Lookup(pod, "imagePullSecrets", Some(Sequence));
    j.Some? && exists i :: 0 <= i < |pod.kids[j.value].kids| && StringAt(pod.kids[j.value].kids[i], "name") == "ha-registry"
  }

  /** The template that was there is still there and names the registry; where there was none there is none. */
  predicate Guarded(before: Option<Tree>, after: Option<Tree>) {
    (before.Some? <==> after.Some?) && (after.Some? ==> NamesRegistry(after.value))
  }

  /** Only the namespace is set. */
  ghost predicate OnlyNamespace(m: Tree, t: Tree, ns: string) {
    var j := Lookup(m, "metadata", Some(Mapping));
    j.Some? && t == m.(kids := m.kids[j.value := SetString(m.kids[j.value], "namespace", ns)])
  }

  /** What the kind's way to the pod template means for the outcome. */
  lemma GuardedByKeys(m: Tree, ns: string, keys: seq<string>)
    requires Paired(m) && Sanitize(m, ns).Sanitized? && PodKeys(StringAt(m, "kind")) == keys && keys != []
    ensures var t := Sanitize(m, ns).tree; Guarded(Chain(Some(m), keys), Chain(Some(t), keys))
    ensures Chain(Some(m), keys).None? ==> OnlyNamespace(m, Sanitize(m, ns).tree, ns)
  {
    var t, kind := Sanitize(m, ns).tree, StringAt(m, "kind");
    SanitizedShape(m, ns);
    NamespaceStep(m, ns);
    PullSecretIsPresent(m, ns);
    FollowIsChain(m, keys);
    FollowIsChain(t, keys);
    PodBefore(m, ns);
    hide Sanitize, Follow, Chain, NamesRegistry, Lookup, PodKeys, StringAt, WithNamespace, HasSecret, Secrets, SetString;
    var p := PodAt(m, kind);
    assert PodAt(t, kind) == Follow(t, keys) && p == Follow(m, keys);
    if p.Some? {
      SecretIsRegistry(At(t, p.value));
    } else {
      NoTemplate(WithNamespace(m, ns), kind);
    }
  }

  lemma SecretIsRegistry(pod: Tree)
    requires HasSecret(Secrets(pod))
    ensures NamesRegistry(pod)
  {
    var i :| 0 <= i < |Secrets(pod)| && StringAt(Secrets(pod)[i], "name") == SECRET;
  }

  lemma NoTemplate(n: Tree, kind: string)
    requires PodAt(n, kind).None?
    ensures WithPullSecret(n, kind) == n
  {}

  /**
   Where the registry's pull secret is named after sanitizing, by kind: in the spec of a pod, in the template's spec of
   what runs pods, in the job template's template's spec of a cron job. Everything else only gets its namespace.
   */
  lemma RegistryByKind(m: Tree, ns: string)
    requires Paired(m) && Sanitize(m, ns).Sanitized?
    ensures var t, kind := Sanitize(m, ns).tree, Text.Lower(StringAt(m, "kind"));
            if kind == "pod" then
              Guarded(InPod(m), InPod(t)) && (InPod(m).None? ==> OnlyNamespace(m, t, ns))
            else if kind in {"deployment", "statefulset", "daemonset", "replicaset", "job"} then
              Guarded(InTemplate(m), InTemplate(t)) && (InTemplate(m).None? ==> OnlyNamespace(m, t, ns))
            else if kind == "cronjob" then
              Guarded(InJobTemplate(m), InJobTemplate(t)) && (InJobTemplate(m).None? ==> OnlyNamespace(m, t, ns))
            else OnlyNamespace(m, t, ns)
  {
    var t, kind := Sanitize(m, ns).tree, StringAt(m, "kind");
    ChainsWrittenOut(m);
    ChainsWrittenOut(t);
    if PodKeys(kind) != [] {
      GuardedByKeys(m, ns, PodKeys(kind));
    } else {
      SanitizedShape(m, ns);
      NamespaceStep(m, ns);
      NoTemplate(WithNamespace(m, ns), kind);
    }
    hide Sanitize, Chain, Guarded, WithNamespace, SetString, Lookup, StringAt, Child;
  }

  /** What is accepted, and why everything else is refused. */
  lemma RefusedExactly(m: Tree, ns: string)
    ensures var v, kind, meta := Sanitize(m, ns), StringAt(m, "kind"), Child(Some(m), "metadata");
            var clusterWide := Text.Lower(kind) in {
              "node", "namespace", "persistentvolume", "clusterrole", "clusterrolebinding", "storageclass",
              "customresourcedefinition", "priorityclass", "volumeattachment", "csidriver",
              "mutatingwebhookconfiguration", "validatingwebhookconfiguration"};
            && (v.Sanitized? <==> m.kind == Mapping && kind != "" && !clusterWide && meta.Some? && StringAt(meta.value, "name") != "")
            && (v == Refused(NotMapping) <==> m.kind != Mapping)
            && (v == Refused(MissingKind) <==> m.kind == Mapping && kind == "")
            && (v == Refused(ClusterKind) <==> m.kind == Mapping && kind != "" && clusterWide)
            && v != Nothing
  {
    hide Find, StringAt;
  }
}
