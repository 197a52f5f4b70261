/** The status of a namespace: counters over its pods, and which warnings still matter. */
module Status {
  import opened Sorting
  import Text

  datatype Deployment = Deployment(name: string, replicas: int, readyReplicas: int, rolling: bool, missingRequests: bool)

  datatype ReplicaSet = ReplicaSet(name: string, generation: int, desired: int, current: int, ready: int, active: bool)

  datatype Pod = Pod(name: string, phase: string, ready: bool, reason: string, message: string)

  datatype NamespacedService = NamespacedService(name: string, kind: string, clusterIp: string)

  datatype Resource = Resource(kind: string, name: string, phase: string)

  datatype Event = Event(kind: string, reason: string, message: string, objectKind: string, objectName: string, stale: bool)

  datatype Summary = Summary(
    deployments: int, readyDeployments: int, replicaSets: int, pods: int,
    runningPods: int, pendingPods: int, failedPods: int, warnings: int)

  // ----- what is looked at

  predicate ReplicaSetActive(rs: ReplicaSet) { rs.desired > 0 || rs.current > 0 || rs.ready > 0 }

  predicate IsWarning(ev: Event) { Text.Lower(ev.kind) == "warning" }

  predicate Serving(d: Deployment) { d.replicas > 0 && d.readyReplicas >= d.replicas && !d.rolling }

  predicate Troubled(d: Deployment) { d.missingRequests || d.rolling || (d.replicas > 0 && d.readyReplicas < d.replicas) }

  predicate PodRunning(p: Pod) { p.phase == "Running" && p.ready }

  predicate PodFailed(p: Pod) { p.phase in {"Failed", "Unknown"} }

  /** Succeeded pods and pods without a phase are in none of the counters. */
  predicate PodUncounted(p: Pod) { p.phase in {"Succeeded", ""} }

  predicate PodPending(p: Pod) { !PodRunning(p) && !PodFailed(p) && !PodUncounted(p) }

  predicate PodTroubled(p: Pod) { p.phase in {"Pending", "Failed", "Unknown"} || (p.phase == "Running" && !p.ready) }

  /** The objects that events are judged by. */
  datatype Objects = Objects(deployments: seq<Deployment>, replicaSets: seq<ReplicaSet>, pods: seq<Pod>)

  /** The first of xs with the property, as a list. */
  function FirstWith<T>(xs: seq<T>, p: T -> bool): seq<T> {
    if xs == [] then [] else if p(xs[0]) then xs[..1] else FirstWith(xs[1..], p)
  }

  function SetNamed(name: string): ReplicaSet -> bool { (rs: ReplicaSet) => rs.name == name }

  function PodNamed(name: string): Pod -> bool { (p: Pod) => p.name == name }

  function DeploymentNamed(name: string): Deployment -> bool { (d: Deployment) => d.name == name }

  /** A warning about something that is gone or fine again; without a known object, when nothing is in trouble. */
  predicate Stale(o: Objects, ev: Event) {
    var kind, name := Text.Lower(Text.Trim(ev.objectKind)), Text.Trim(ev.objectName);
    if kind == "replicaset" then
      var found := FirstWith(o.replicaSets, SetNamed(name));
      found == [] || !ReplicaSetActive(found[0])
    else if kind == "pod" then
      var found := FirstWith(o.pods, PodNamed(name));
      found == [] || PodRunning(found[0])
    else if kind == "deployment" then
      var found := FirstWith(o.deployments, DeploymentNamed(name));
      found == [] || (Serving(found[0]) && !found[0].missingRequests)
    else
      (forall d :: d in o.deployments ==> !Troubled(d)) && (forall p :: p in o.pods ==> !PodTroubled(p))
  }

  predicate Contains(s: string, part: string) { part <= s || (s != "" && Contains(s[1..], part)) }

  predicate LooksLikeQuota(message: string) {
    var m := Text.Lower(message);
    Contains(m, "exceeded quota") || (Contains(m, "forbidden") && Contains(m, "quota")) || Contains(m, "project-quota")
  }

  const QUOTA_HINT := "（容器必须声明 resources.requests.cpu 与 resources.requests.memory）"

  function EventLine(ev: Event): string {
    var line := Text.Trim(ev.reason + ": " + ev.message);
    var named := if ev.objectKind != "" && ev.objectName != "" then ev.objectKind + "/" + ev.objectName + " " + line else line;
    if LooksLikeQuota(ev.message) then named + QUOTA_HINT else named
  }

  function Digits(n: nat): string { (if n < 10 then "" else Digits(n / 10)) + [('0' as int + n % 10) as char] }

  function Number(n: int): string { if n < 0 then "-" + Digits(-n) else Digits(n) }

  // ----- lines

  /** A message for one of the two lists. */
  datatype Line = Line(past: bool, text: string)

  function DeploymentLines(d: Deployment, live: bool): seq<Line> {
    (if d.missingRequests then [Line(false, "Deployment " + d.name + " 的容器没有 resources.requests.cpu/memory，会被 ResourceQuota project-quota 拦住，Pod 起不来。")] else [])
    + if d.replicas > 0 && d.readyReplicas < d.replicas && (d.rolling || live)
      then [Line(false, "Deployment " + d.name + " 就绪 " + Number(d.readyReplicas) + "/" + Number(d.replicas) + "，滚动更新未完成。")] else []
  }

  function PodLines(p: Pod): seq<Line> {
    if p.phase == "Pending" && (p.reason != "" || p.message != "")
    then [Line(false, "Pod " + p.name + " 等待中：" + p.reason + " " + p.message)]
    else if PodFailed(p) then [Line(false, "Pod " + p.name + " " + p.phase + "：" + p.reason + " " + p.message)]
    else []
  }

  function EventLines(o: Objects, ev: Event): seq<Line> { if IsWarning(ev) then [Line(Stale(o, ev), EventLine(ev))] else [] }

  function AllDeploymentLines(ds: seq<Deployment>, live: bool): seq<Line> {
    if ds == [] then [] else AllDeploymentLines(ds[..|ds| - 1], live) + DeploymentLines(ds[|ds| - 1], live)
  }

  function AllPodLines(pods: seq<Pod>): seq<Line> {
    if pods == [] then [] else AllPodLines(pods[..|pods| - 1]) + PodLines(pods[|pods| - 1])
  }

  function AllEventLines(o: Objects, events: seq<Event>): seq<Line> {
    if events == [] then [] else AllEventLines(o, events[..|events| - 1]) + EventLines(o, events[|events| - 1])
  }

  function Lines(o: Objects, events: seq<Event>, live: bool): seq<Line> {
    AllDeploymentLines(o.deployments, live) + AllPodLines(o.pods) + AllEventLines(o, events)
  }

  /** The two lists, and everything that was put into either. */
  datatype Lists = Lists(warnings: seq<string>, history: seq<string>, seen: set<string>)

  function Add(l: Lists, line: Line): Lists {
    var t := Text.Trim(line.text);
    if t == "" || t in l.seen then l
    else if line.past then Lists(l.warnings, l.history + [t], l.seen + {t})
    else Lists(l.warnings + [t], l.history, l.seen + {t})
  }

  function AddAll(l: Lists, lines: seq<Line>): Lists {
    if lines == [] then l else Add(AddAll(l, lines[..|lines| - 1]), lines[|lines| - 1])
  }

  lemma {:induction false} AddAllConcat(l: Lists, a: seq<Line>, b: seq<Line>)
    ensures AddAll(l, a + b) == AddAll(AddAll(l, a), b)
  {
    if b == [] {
      assert a + b == a;
    } else {
      AddAllConcat(l, a, b[..|b| - 1]);
      assert (a + b)[..|a + b| - 1] == a + b[..|b| - 1];
    }
  }

  // ----- counting

  function Count<T>(xs: seq<T>, p: T -> bool): nat {
    if xs == [] then 0 else Count(xs[..|xs| - 1], p) + if p(xs[|xs| - 1]) then 1 else 0
  }

  /** Every pod is in exactly one of the three counters, unless it has succeeded or has no phase. */
  lemma {:induction false} PodsAreCounted(pods: seq<Pod>)
    ensures Count(pods, PodRunning) + Count(pods, PodPending) + Count(pods, PodFailed) + Count(pods, PodUncounted) == |pods|
  {
    if pods != [] {
      PodsAreCounted(pods[..|pods| - 1]);
    }
  }

  // ----- what the lists come to

  ghost predicate Distinct(xs: seq<string>) { forall i, j :: 0 <= i < j < |xs| ==> xs[i] != xs[j] }

  ghost predicate WellKept(l: Lists) {
    && Distinct(l.warnings) && Distinct(l.history)
    && (forall t :: t in l.seen <==> t in l.warnings || t in l.history)
    && (forall t :: t in l.warnings ==> t !in l.history)
    && "" !in l.seen
  }

  lemma AddKeeps(l: Lists, line: Line)
    requires WellKept(l)
    ensures WellKept(Add(l, line))
  {}

  /** The first line with a text, for those that have one. */
  ghost predicate First(lines: seq<Line>, k: nat, t: string) {
    k < |lines| && Text.Trim(lines[k].text) == t && forall i :: 0 <= i < k ==> Text.Trim(lines[i].text) != t
  }

  /**
   From empty lists: no list has a duplicate, no text is in both, every text is there, and which list it is in is
   decided by the first line that had it.
   */
  lemma {:induction false} ListsClassify(lines: seq<Line>)
    ensures var l := AddAll(Lists([], [], {}), lines);
            && WellKept(l)
            && (forall k :: 0 <= k < |lines| && Text.Trim(lines[k].text) != "" ==> Text.Trim(lines[k].text) in l.seen)
            && (forall t, k: nat :: t != "" && First(lines, k, t) ==> (t in l.history <==> lines[k].past))
  {
    if lines != [] {
      var n := |lines| - 1;
      var before := lines[..n];
      ListsClassify(before);
      var l := AddAll(Lists([], [], {}), before);
      AddKeeps(l, lines[n]);
      forall t, k: nat | t != "" && First(lines, k, t) ensures t in Add(l, lines[n]).history <==> lines[k].past {
        if k < n {
          assert First(before, k, t);
          assert Text.Trim(before[k].text) in l.seen;
        } else {
          NewTextUnseen(before, t);
        }
      }
    }
  }

  /** Nothing is seen that no line said. */
  lemma {:induction false} NewTextUnseen(lines: seq<Line>, t: string)
    requires forall i :: 0 <= i < |lines| ==> Text.Trim(lines[i].text) != t
    ensures t !in AddAll(Lists([], [], {}), lines).seen
  {
    if lines != [] {
      NewTextUnseen(lines[..|lines| - 1], t);
    }
  }

  lemma EventLineHasInk(ev: Event)
    ensures Text.Trim(EventLine(ev)) != ""
  {
    var raw := ev.reason + ": " + ev.message;
    assert raw[|ev.reason|] == ':';
    Text.TrimKeepsInk(raw, |ev.reason|);
    var i, j := Text.TrimSlices(raw);
    var line := Text.Trim(raw);
    assert !Text.IsSpace(line[0]);
    var named := if ev.objectKind != "" && ev.objectName != "" then ev.objectKind + "/" + ev.objectName + " " + line else line;
    var k := if named == line then 0 else |ev.objectKind| + 1 + |ev.objectName| + 1;
    assert named[k] == line[0];
    assert EventLine(ev)[k] == line[0];
    Text.TrimKeepsInk(EventLine(ev), k);
  }

  lemma {:induction false} WarningsHaveLines(o: Objects, events: seq<Event>, k: nat) returns (i: nat)
    requires k < |events| && IsWarning(events[k])
    ensures i < |AllEventLines(o, events)| && AllEventLines(o, events)[i].text == EventLine(events[k])
  {
    var n := |events| - 1;
    if k < n {
      i := WarningsHaveLines(o, events[..n], k);
    } else {
      i := |AllEventLines(o, events[..n])|;
    }
  }

  /** Every warning event's line is in exactly one of the two lists. */
  lemma EveryWarningIsListed(o: Objects, events: seq<Event>, live: bool, k: nat)
    requires k < |events| && IsWarning(events[k])
    ensures var l, t := AddAll(Lists([], [], {}), Lines(o, events, live)), Text.Trim(EventLine(events[k]));
            WellKept(l) && (t in l.warnings <==> t !in l.history)
  {
    ListsClassify(Lines(o, events, live));
    var j := WarningIsALine(o, events, live, k);
    EventLineHasInk(events[k]);
    hide AddAll, Lines, EventLine, Text.Trim;
  }

  lemma WarningIsALine(o: Objects, events: seq<Event>, live: bool, k: nat) returns (j: nat)
    requires k < |events| && IsWarning(events[k])
    ensures j < |Lines(o, events, live)| && Lines(o, events, live)[j].text == EventLine(events[k])
  {
    var i := WarningsHaveLines(o, events, k);
    hide AllDeploymentLines, AllPodLines, AllEventLines, EventLine;
    j := |AllDeploymentLines(o.deployments, live) + AllPodLines(o.pods)| + i;
  }

  // ----- what is said of each object

  ghost predicate FirstAt<T>(xs: seq<T>, i: nat, p: T -> bool) {
    i < |xs| && p(xs[i]) && forall j :: 0 <= j < i ==> !p(xs[j])
  }

  lemma {:induction false} FirstIsFound<T>(xs: seq<T>, p: T -> bool)
    ensures var found := FirstWith(xs, p);
            && (found == [] <==> forall i: nat :: !FirstAt(xs, i, p))
            && (forall i: nat :: FirstAt(xs, i, p) ==> found == [xs[i]])
  {
    if xs != [] {
      if p(xs[0]) {
        assert FirstAt(xs, 0, p) && xs[..1] == [xs[0]];
      } else {
        FirstIsFound(xs[1..], p);
        forall i: nat ensures FirstAt(xs, i, p) <==> i > 0 && FirstAt(xs[1..], i - 1, p) {
          assert forall j :: 0 < j < |xs| ==> xs[j] == xs[1..][j - 1];
        }
        assert forall i: nat :: FirstAt(xs[1..], i, p) ==> FirstAt(xs, i + 1, p);
      }
    }
  }

  /**
   Which warnings are history. About a named replica set, pod or deployment: when the first object with the name has
   no replicas left, runs and is ready, or is completely served; or when there is none. About anything else: when no
   deployment and no pod is in trouble.
   */
  lemma StaleExactly(o: Objects, ev: Event)
    ensures var kind, name := Text.Lower(Text.Trim(ev.objectKind)), Text.Trim(ev.objectName);
            && (kind == "replicaset" ==>
                  (Stale(o, ev) <==> forall i: nat :: FirstAt(o.replicaSets, i, SetNamed(name)) ==>
                     o.replicaSets[i].desired <= 0 && o.replicaSets[i].current <= 0 && o.replicaSets[i].ready <= 0))
            && (kind == "pod" ==>
                  (Stale(o, ev) <==> forall i: nat :: FirstAt(o.pods, i, PodNamed(name)) ==> o.pods[i].phase == "Running" && o.pods[i].ready))
            && (kind == "deployment" ==>
                  (Stale(o, ev) <==> forall i: nat :: FirstAt(o.deployments, i, DeploymentNamed(name)) ==>
                     var d := o.deployments[i];
                     d.replicas > 0 && d.readyReplicas >= d.replicas && !d.rolling && !d.missingRequests))
            && (kind !in {"replicaset", "pod", "deployment"} ==>
                  (Stale(o, ev) <==>
                     && (forall d :: d in o.deployments ==>
                           !d.missingRequests && !d.rolling && (d.replicas <= 0 || d.readyReplicas >= d.replicas))
                     && (forall p :: p in o.pods ==>
                           p.phase !in {"Pending", "Failed", "Unknown"} && (p.phase == "Running" ==> p.ready))))
  {
    var kind, name := Text.Lower(Text.Trim(ev.objectKind)), Text.Trim(ev.objectName);
    FirstIsFound(o.replicaSets, SetNamed(name));
    FirstIsFound(o.pods, PodNamed(name));
    FirstIsFound(o.deployments, DeploymentNamed(name));
    hide FirstWith, FirstAt, Text.Trim, Text.Lower;
    if kind == "replicaset" && FirstWith(o.replicaSets, SetNamed(name)) != [] {
      var i: nat :| FirstAt(o.replicaSets, i, SetNamed(name));
    } else if kind == "pod" && FirstWith(o.pods, PodNamed(name)) != [] {
      var i: nat :| FirstAt(o.pods, i, PodNamed(name));
    } else if kind == "deployment" && FirstWith(o.deployments, DeploymentNamed(name)) != [] {
      var i: nat :| FirstAt(o.deployments, i, DeploymentNamed(name));
    }
  }

  /** Which counter a pod is in, by its phase; and whether there is a warning about it. */
  lemma PodExactly(p: Pod)
    ensures PodRunning(p) <==> p.phase == "Running" && p.ready
    ensures PodFailed(p) <==> p.phase in {"Failed", "Unknown"}
    ensures PodPending(p) <==> p.phase !in {"Running", "Failed", "Unknown", "Succeeded", ""} || (p.phase == "Running" && !p.ready)
    ensures |PodLines(p)| == if p.phase in {"Failed", "Unknown"} || (p.phase == "Pending" && p.reason + p.message != "") then 1 else 0
    ensures forall line :: line in PodLines(p) ==> !line.past && "Pod " + p.name <= line.text
  {}

  /** What a warning event's line says: the object if there is one, the trimmed reason and message, and a hint about quotas. */
  lemma EventLineExactly(ev: Event)
    ensures var said := Text.Trim(ev.reason + ": " + ev.message);
            var about := if ev.objectKind == "" || ev.objectName == "" then "" else ev.objectKind + "/" + ev.objectName + " ";
            about + said <= EventLine(ev)
            && (EventLine(ev) != about + said <==>
                  var m := Text.Lower(ev.message);
                  Contains(m, "exceeded quota") || (Contains(m, "forbidden") && Contains(m, "quota")) || Contains(m, "project-quota"))
  {
    hide Contains, Text.Trim, Text.Lower;
    assert |QUOTA_HINT| > 0;
  }

  lemma {:induction false} ContainsMeans(s: string, part: string)
    ensures Contains(s, part) <==> exists i :: 0 <= i <= |s| && part <= s[i..]
  {
    assert s[0..] == s;
    if !(part <= s) && s != "" {
      ContainsMeans(s[1..], part);
      assert forall i :: 0 < i <= |s| ==> s[i..] == s[1..][i - 1..];
      if i :| 0 <= i <= |s[1..]| && part <= s[1..][i..] {
        assert s[i + 1..] == s[1..][i..];
      }
      if i :| 0 <= i <= |s| && part <= s[i..] {
        assert i > 0 && s[1..][i - 1..] == s[i..];
      }
    }
  }

  /** The number that a row of digits stands for. */
  function Value(s: string): int {
    if s == "" then 0 else 10 * Value(s[..|s| - 1]) + (s[|s| - 1] as int - '0' as int)
  }

  lemma DigitValue(d: nat)
    requires d < 10
    ensures var c := ('0' as int + d) as char; '0' <= c <= '9' && c as int - '0' as int == d
  {}

  lemma OneMore(s: string, c: char)
    ensures Value(s + [c]) == 10 * Value(s) + (c as int - '0' as int)
  {
    assert (s + [c])[..|s|] == s;
  }

  lemma DigitsUnfold(n: nat)
    ensures Digits(n) == (if n < 10 then "" else Digits(n / 10)) + [('0' as int + n % 10) as char]
  {}

  /** Counts are written in decimal. */
  lemma {:induction false} DigitsExactly(n: nat)
    ensures Digits(n) != "" && Value(Digits(n)) == n
  {
    hide Digits;
    DigitsUnfold(n);
    DigitValue(n % 10);
    OneMore(if n < 10 then "" else Digits(n / 10), ('0' as int + n % 10) as char);
    hide Value;
    ValueOfNothing();
    if n >= 10 {
      DigitsExactly(n / 10);
    }
  }

  lemma ValueOfNothing()
    ensures Value("") == 0
  {}

  /** When a deployment counts as ready, and which warnings there are about it. */
  lemma DeploymentExactly(d: Deployment, live: bool)
    ensures Serving(d) <==> d.replicas > 0 && d.readyReplicas >= d.replicas && !d.rolling
    ensures |DeploymentLines(d, live)| == (if d.missingRequests then 1 else 0)
              + if d.replicas > 0 && d.readyReplicas < d.replicas && (d.rolling || live) then 1 else 0
    ensures forall line :: line in DeploymentLines(d, live) ==> !line.past && "Deployment " + d.name <= line.text
  {}

  // ----- sorting by name

  /** Byte order of names. */
  predicate Leq(a: string, b: string) {
    a == "" || (b != "" && (a[0] < b[0] || (a[0] == b[0] && Leq(a[1..], b[1..]))))
  }

  lemma {:induction false} LeqTotal(a: string, b: string)
    ensures Leq(a, b) || Leq(b, a)
  {
    if a != "" && b != "" && a[0] == b[0] {
      LeqTotal(a[1..], b[1..]);
    }
  }

  lemma {:induction false} LeqTransitive(a: string, b: string, c: string)
    requires Leq(a, b) && Leq(b, c)
    ensures Leq(a, c)
  {
    if a != "" && a[0] == b[0] && b[0] == c[0] {
      LeqTransitive(a[1..], b[1..], c[1..]);
    }
  }

  /** At the first place where they differ a has the smaller character. */
  ghost predicate Below(a: string, b: string) { exists i :: 0 <= i < |a| && i < |b| && a[..i] == b[..i] && a[i] < b[i] }

  lemma BelowSameHead(a: string, b: string)
    requires a != "" && b != "" && a[0] == b[0]
    ensures Below(a, b) <==> Below(a[1..], b[1..])
    ensures a <= b <==> a[1..] <= b[1..]
  {
    if Below(a, b) {
      var i :| 0 <= i < |a| && i < |b| && a[..i] == b[..i] && a[i] < b[i];
      assert a[1..][..i - 1] == a[..i][1..] && b[1..][..i - 1] == b[..i][1..];
    }
    if Below(a[1..], b[1..]) {
      var i :| 0 <= i < |a[1..]| && i < |b[1..]| && a[1..][..i] == b[1..][..i] && a[1..][i] < b[1..][i];
      assert a[..i + 1] == [a[0]] + a[1..][..i] && b[..i + 1] == [b[0]] + b[1..][..i];
    }
    assert a == [a[0]] + a[1..] && b == [b[0]] + b[1..];
  }

  lemma BelowOtherHead(a: string, b: string)
    requires a != "" && b != "" && a[0] != b[0]
    ensures Below(a, b) <==> a[0] < b[0]
    ensures !(a <= b)
  {
    if a[0] < b[0] {
      assert a[..0] == b[..0];
    }
    if Below(a, b) {
      var i :| 0 <= i < |a| && i < |b| && a[..i] == b[..i] && a[i] < b[i];
      assert i > 0 ==> a[..i][0] == b[..i][0];
    }
  }

  /** The order of names is the one of dictionaries. */
  lemma {:induction false} LeqExactly(a: string, b: string)
    ensures Leq(a, b) <==> a <= b || Below(a, b)
  {
    if a != "" && b != "" {
      if a[0] == b[0] {
        BelowSameHead(a, b);
        LeqExactly(a[1..], b[1..]);
      } else {
        BelowOtherHead(a, b);
      }
    }
  }

  function DeploymentOrder(): (Deployment, Deployment) -> bool { (x: Deployment, y: Deployment) => Leq(x.name, y.name) }

  function PodOrder(): (Pod, Pod) -> bool { (x: Pod, y: Pod) => Leq(x.name, y.name) }

  function ServiceOrder(): (NamespacedService, NamespacedService) -> bool {
    (x: NamespacedService, y: NamespacedService) => Leq(x.name, y.name)
  }

  /** By kind, and by name within a kind. */
  function ResourceOrder(): (Resource, Resource) -> bool {
    (x: Resource, y: Resource) => if x.kind == y.kind then Leq(x.name, y.name) else Leq(x.kind, y.kind)
  }

  /** The newest generation first. */
  function ReplicaSetOrder(): (ReplicaSet, ReplicaSet) -> bool {
    (x: ReplicaSet, y: ReplicaSet) => x.generation > y.generation || (x.generation == y.generation && Leq(x.name, y.name))
  }

  lemma {:induction false} LeqAntisymmetric(a: string, b: string)
    requires Leq(a, b) && Leq(b, a)
    ensures a == b
  {
    if a != "" {
      LeqAntisymmetric(a[1..], b[1..]);
      assert a == [a[0]] + a[1..] && b == [b[0]] + b[1..];
    }
  }

  lemma ResourceOrderIsTotal()
    ensures TotalOrder(ResourceOrder())
  {
    forall x: Resource, y: Resource ensures ResourceOrder()(x, y) || ResourceOrder()(y, x) {
      LeqTotal(x.kind, y.kind);
      LeqTotal(x.name, y.name);
    }
    forall x: Resource, y: Resource, z: Resource | ResourceOrder()(x, y) && ResourceOrder()(y, z)
      ensures ResourceOrder()(x, z)
    {
      ResourcesChain(x, y, z);
    }
  }

  lemma ResourcesChain(x: Resource, y: Resource, z: Resource)
    requires ResourceOrder()(x, y) && ResourceOrder()(y, z)
    ensures ResourceOrder()(x, z)
  {
    if x.kind == y.kind == z.kind {
      LeqTransitive(x.name, y.name, z.name);
    } else if x.kind != y.kind && y.kind != z.kind {
      LeqTransitive(x.kind, y.kind, z.kind);
      if x.kind == z.kind {
        LeqAntisymmetric(x.kind, y.kind);
      }
    }
  }

  lemma OrdersAreTotal()
    ensures TotalOrder(DeploymentOrder()) && TotalOrder(PodOrder()) && TotalOrder(ServiceOrder()) && TotalOrder(ReplicaSetOrder())
  {
    forall a: string, b: string ensures Leq(a, b) || Leq(b, a) {
      LeqTotal(a, b);
    }
    forall a: string, b: string, c: string | Leq(a, b) && Leq(b, c) ensures Leq(a, c) {
      LeqTransitive(a, b, c);
    }
  }

  /** How sorted lists are ordered: newest generations first, resources by kind, and all else by name. */
  lemma SortedExactly(ds: seq<Deployment>, rss: seq<ReplicaSet>, pods: seq<Pod>, services: seq<NamespacedService>, resources: seq<Resource>)
    ensures Sorted(ds, DeploymentOrder()) <==> forall i, j :: 0 <= i < j < |ds| ==> Leq(ds[i].name, ds[j].name)
    ensures Sorted(pods, PodOrder()) <==> forall i, j :: 0 <= i < j < |pods| ==> Leq(pods[i].name, pods[j].name)
    ensures Sorted(services, ServiceOrder()) <==> forall i, j :: 0 <= i < j < |services| ==> Leq(services[i].name, services[j].name)
    ensures Sorted(rss, ReplicaSetOrder()) <==> forall i, j :: 0 <= i < j < |rss| ==>
              rss[j].generation <= rss[i].generation && (rss[i].generation == rss[j].generation ==> Leq(rss[i].name, rss[j].name))
    ensures Sorted(resources, ResourceOrder()) <==> forall i, j :: 0 <= i < j < |resources| ==>
              Leq(resources[i].kind, resources[j].kind) && (resources[i].kind == resources[j].kind ==> Leq(resources[i].name, resources[j].name))
  {
    forall x: ReplicaSet, y: ReplicaSet
      ensures ReplicaSetOrder()(x, y) <==> y.generation <= x.generation && (x.generation == y.generation ==> Leq(x.name, y.name))
    {}
    forall x: Resource, y: Resource
      ensures ResourceOrder()(x, y) <==> Leq(x.kind, y.kind) && (x.kind == y.kind ==> Leq(x.name, y.name))
    {
      LeqReflexive(x.kind);
    }
  }

  lemma {:induction false} LeqReflexive(a: string)
    ensures Leq(a, a)
  {
    LeqTotal(a, a);
  }

  function Judged(rss: seq<ReplicaSet>): seq<ReplicaSet> {
    seq(|rss|, i requires 0 <= i < |rss| => rss[i].(active := ReplicaSetActive(rss[i])))
  }

  function Marked(o: Objects, ev: Event): Event { if IsWarning(ev) && Stale(o, ev) then ev.(stale := true) else ev }

  function CurrentWarning(o: Objects): Event -> bool { (ev: Event) => IsWarning(ev) && !Stale(o, ev) }

  class NamespaceStatus {
    var summary: Summary
    var deployments: seq<Deployment>
    var replicaSets: seq<ReplicaSet>
    var pods: seq<Pod>
    var services: seq<NamespacedService>
    var resources: seq<Resource>
    var events: seq<Event>
    var warnings: seq<string>
    var history: seq<string>

    function Seen(): Objects
      reads this
    {
      Objects(deployments, replicaSets, pods)
    }

    /** The lists are added to; the callers leave them empty. */
    method FinalizeStatus()
      modifies this
      ensures Sorted(deployments, DeploymentOrder()) && multiset(deployments) == multiset(old(deployments))
      ensures Sorted(pods, PodOrder()) && multiset(pods) == multiset(old(pods))
      ensures Sorted(services, ServiceOrder()) && multiset(services) == multiset(old(services))
      ensures Sorted(resources, ResourceOrder()) && multiset(resources) == multiset(old(resources))
      ensures exists rss :: Sorted(rss, ReplicaSetOrder()) && multiset(rss) == multiset(old(replicaSets)) && replicaSets == Judged(rss)
      ensures |events| == |old(events)| && forall i :: 0 <= i < |events| ==> events[i] == Marked(Seen(), old(events)[i])
      ensures var live := pods != [] || replicaSets != [] || exists ev :: ev in old(events) && IsWarning(ev);
              var l := AddAll(Lists(old(warnings), old(history), {}), Lines(Seen(), old(events), live));
              warnings == l.warnings && history == l.history
      ensures summary == Summary(|deployments|, Count(deployments, Serving), |replicaSets|, |pods|,
                                 Count(pods, PodRunning), Count(pods, PodPending), Count(pods, PodFailed),
                                 Count(old(events), CurrentWarning(Seen())))
    {
      hide AddAll, AllDeploymentLines, AllPodLines, AllEventLines, Count, TotalOrder, Sorted, Judged, Marked, IsWarning;
      SortLists();
      var hasWarning := HasWarningEvents(events);
      var live := |pods| > 0 || |replicaSets| > 0 || hasWarning;
      var l := Lists(warnings, history, {});
      ghost var start := l;
      var ready, running, pending, failed, current;
      l, ready := LookAtDeployments(l, live);
      l, running, pending, failed := LookAtPods(l);
      AddAllConcat(start, AllDeploymentLines(deployments, live), AllPodLines(pods));
      AddAllConcat(start, AllDeploymentLines(deployments, live) + AllPodLines(pods), AllEventLines(Seen(), events));
      l, current := LookAtEvents(l);
      warnings, history := l.warnings, l.history;
      summary := Summary(|deployments|, ready, |replicaSets|, |pods|, running, pending, failed, current);
    }

    method SortLists()
      modifies this`deployments, this`replicaSets, this`pods, this`services, this`resources
      ensures Sorted(deployments, DeploymentOrder()) && multiset(deployments) == multiset(old(deployments))
      ensures Sorted(pods, PodOrder()) && multiset(pods) == multiset(old(pods))
      ensures Sorted(services, ServiceOrder()) && multiset(services) == multiset(old(services))
      ensures Sorted(resources, ResourceOrder()) && multiset(resources) == multiset(old(resources))
      ensures exists rss :: Sorted(rss, ReplicaSetOrder()) && multiset(rss) == multiset(old(replicaSets)) && replicaSets == Judged(rss)
    {
      hide TotalOrder, Sorted, Judged;
      OrdersAreTotal();
      ResourceOrderIsTotal();
      resources := Sort(resources, ResourceOrder());
      deployments := Sort(deployments, DeploymentOrder());
      var rss := Sort(replicaSets, ReplicaSetOrder());
      replicaSets := MarkActive(rss);
      pods := Sort(pods, PodOrder());
      services := Sort(services, ServiceOrder());
    }

    static method MarkActive(rss: seq<ReplicaSet>) returns (out: seq<ReplicaSet>)
      ensures out == Judged(rss)
    {
      out := rss;
      var i := 0;
      while i < |rss|
        invariant 0 <= i <= |rss| == |out|
        invariant forall k :: 0 <= k < i ==> out[k] == Judged(rss)[k]
        invariant forall k :: i <= k < |rss| ==> out[k] == rss[k]
      {
        out := out[i := out[i].(active := ReplicaSetActive(out[i]))];
        i := i + 1;
      }
    }

    static method HasWarningEvents(events: seq<Event>) returns (found: bool)
      ensures found <==> exists ev :: ev in events && IsWarning(ev)
    {
      var i := 0;
      while i < |events|
        invariant 0 <= i <= |events| && forall k :: 0 <= k < i ==> !IsWarning(events[k])
      {
        if IsWarning(events[i]) {
          return true;
        }
        i := i + 1;
      }
      return false;
    }

    static method AddLine(l: Lists, past: bool, message: string) returns (out: Lists)
      ensures out == Add(l, Line(past, message))
    {
      var t := Text.Trim(message);
      if t == "" {
        return l;
      }
      if t in l.seen {
        return l;
      }
      out := l.(seen := l.seen + {t});
      if past {
        out := out.(history := out.history + [t]);
      } else {
        out := out.(warnings := out.warnings + [t]);
      }
    }

    method LookAtDeployments(l: Lists, live: bool) returns (out: Lists, ready: nat)
      ensures out == AddAll(l, AllDeploymentLines(deployments, live)) && ready == Count(deployments, Serving)
    {
      hide AddAll, DeploymentLines, Serving;
      out, ready := l, 0;
      AddNothing(l);
      var i := 0;
      while i < |deployments|
        invariant 0 <= i <= |deployments|
        invariant out == AddAll(l, AllDeploymentLines(deployments[..i], live)) && ready == Count(deployments[..i], Serving)
      {
        assert deployments[..i + 1][..i] == deployments[..i];
        AddAllConcat(l, AllDeploymentLines(deployments[..i], live), DeploymentLines(deployments[i], live));
        out, ready := LookAtDeployment(out, ready, deployments[i], live);
        i := i + 1;
      }
      assert deployments[..i] == deployments;
    }

    static method LookAtDeployment(l: Lists, before: nat, d: Deployment, live: bool) returns (out: Lists, ready: nat)
      ensures out == AddAll(l, DeploymentLines(d, live)) && ready == before + if Serving(d) then 1 else 0
    {
      hide AddAll, Add;
      out, ready := l, before;
      AddFew(l, DeploymentLines(d, live));
      if d.replicas > 0 && d.readyReplicas >= d.replicas && !d.rolling {
        ready := ready + 1;
      }
      if d.missingRequests {
        out := AddLine(out, false, "Deployment " + d.name + " 的容器没有 resources.requests.cpu/memory，会被 ResourceQuota project-quota 拦住，Pod 起不来。");
      }
      if d.replicas > 0 && d.readyReplicas < d.replicas && (d.rolling || live) {
        out := AddLine(out, false, "Deployment " + d.name + " 就绪 " + Number(d.readyReplicas) + "/" + Number(d.replicas) + "，滚动更新未完成。");
      }
    }

    method LookAtPods(l: Lists) returns (out: Lists, running: nat, pending: nat, failed: nat)
      ensures out == AddAll(l, AllPodLines(pods))
      ensures running == Count(pods, PodRunning) && pending == Count(pods, PodPending) && failed == Count(pods, PodFailed)
    {
      hide AddAll, PodLines, PodRunning, PodPending, PodFailed;
      out, running, pending, failed := l, 0, 0, 0;
      AddNothing(l);
      var i := 0;
      while i < |pods|
        invariant 0 <= i <= |pods| && out == AddAll(l, AllPodLines(pods[..i]))
        invariant running == Count(pods[..i], PodRunning) && pending == Count(pods[..i], PodPending) && failed == Count(pods[..i], PodFailed)
      {
        assert pods[..i + 1][..i] == pods[..i];
        AddAllConcat(l, AllPodLines(pods[..i]), PodLines(pods[i]));
        out, running, pending, failed := LookAtPod(out, running, pending, failed, pods[i]);
        i := i + 1;
      }
      assert pods[..i] == pods;
    }

    static method LookAtPod(l: Lists, run: nat, pend: nat, fail: nat, p: Pod) returns (out: Lists, running: nat, pending: nat, failed: nat)
      ensures out == AddAll(l, PodLines(p))
      ensures running == run + (if PodRunning(p) then 1 else 0) && pending == pend + (if PodPending(p) then 1 else 0)
      ensures failed == fail + if PodFailed(p) then 1 else 0
    {
      hide AddAll, Add;
      out, running, pending, failed := l, run, pend, fail;
      AddFew(l, PodLines(p));
      if p.phase == "Running" {
        if p.ready {
          running := running + 1;
        } else {
          pending := pending + 1;
        }
      } else if p.phase == "Pending" {
        pending := pending + 1;
        if p.reason != "" || p.message != "" {
          out := AddLine(out, false, "Pod " + p.name + " 等待中：" + p.reason + " " + p.message);
        }
      } else if p.phase == "Failed" || p.phase == "Unknown" {
        failed := failed + 1;
        out := AddLine(out, false, "Pod " + p.name + " " + p.phase + "：" + p.reason + " " + p.message);
      } else if p.phase != "Succeeded" && p.phase != "" {
        pending := pending + 1;
      }
    }

    method LookAtEvents(l: Lists) returns (out: Lists, current: nat)
      modifies this`events
      ensures out == AddAll(l, AllEventLines(Seen(), old(events)))
      ensures current == Count(old(events), CurrentWarning(Seen()))
      ensures |events| == |old(events)| && forall i :: 0 <= i < |events| ==> events[i] == Marked(Seen(), old(events)[i])
    {
      hide AddAll, EventLines, Stale, IsWarning;
      out, current := l, 0;
      AddNothing(l);
      ghost var was := events;
      var i := 0;
      while i < |events|
        invariant 0 <= i <= |events| == |was|
        invariant out == AddAll(l, AllEventLines(Seen(), was[..i])) && current == Count(was[..i], CurrentWarning(Seen()))
        invariant forall k :: 0 <= k < i ==> events[k] == Marked(Seen(), was[k])
        invariant forall k :: i <= k < |was| ==> events[k] == was[k]
      {
        assert was[..i + 1][..i] == was[..i];
        AddAllConcat(l, AllEventLines(Seen(), was[..i]), EventLines(Seen(), was[i]));
        var ev;
        out, current, ev := LookAtEvent(out, current, events[i]);
        events := events[i := ev];
        i := i + 1;
      }
      assert was[..i] == was;
    }

    method LookAtEvent(l: Lists, before: nat, ev: Event) returns (out: Lists, current: nat, marked: Event)
      ensures out == AddAll(l, EventLines(Seen(), ev)) && marked == Marked(Seen(), ev)
      ensures current == before + if CurrentWarning(Seen())(ev) then 1 else 0
    {
      hide AddAll, Add, Stale, EventLine;
      out, current, marked := l, before, ev;
      AddFew(l, EventLines(Seen(), ev));
      if !IsWarning(ev) {
        return;
      }
      var line := EventLine(ev);
      var stale := EventIsStale(ev);
      if stale {
        marked := ev.(stale := true);
        out := AddLine(out, true, line);
        return;
      }
      current := current + 1;
      out := AddLine(out, false, line);
    }

    method EventIsStale(ev: Event) returns (stale: bool)
      ensures stale == Stale(Seen(), ev)
    {
      var kind, name := Text.Lower(Text.Trim(ev.objectKind)), Text.Trim(ev.objectName);
      var i := 0;
      if kind == "replicaset" {
        while i < |replicaSets|
          invariant 0 <= i <= |replicaSets| && FirstWith(replicaSets, SetNamed(name)) == FirstWith(replicaSets[i..], SetNamed(name))
        {
          if replicaSets[i].name == name {
            return !ReplicaSetActive(replicaSets[i]);
          }
          assert replicaSets[i..][1..] == replicaSets[i + 1..];
          i := i + 1;
        }
        return true;
      }
      if kind == "pod" {
        while i < |pods|
          invariant 0 <= i <= |pods| && FirstWith(pods, PodNamed(name)) == FirstWith(pods[i..], PodNamed(name))
        {
          if pods[i].name == name {
            return pods[i].phase == "Running" && pods[i].ready;
          }
          assert pods[i..][1..] == pods[i + 1..];
          i := i + 1;
        }
        return true;
      }
      if kind == "deployment" {
        while i < |deployments|
          invariant 0 <= i <= |deployments| && FirstWith(deployments, DeploymentNamed(name)) == FirstWith(deployments[i..], DeploymentNamed(name))
        {
          var d := deployments[i];
          if d.name == name {
            return d.replicas > 0 && d.readyReplicas >= d.replicas && !d.rolling && !d.missingRequests;
          }
          assert deployments[i..][1..] == deployments[i + 1..];
          i := i + 1;
        }
        return true;
      }
      stale := NothingIsTroubled();
    }

    method NothingIsTroubled() returns (fine: bool)
      ensures fine <==> (forall d :: d in deployments ==> !Troubled(d)) && (forall p :: p in pods ==> !PodTroubled(p))
    {
      var i := 0;
      while i < |deployments|
        invariant 0 <= i <= |deployments| && forall k :: 0 <= k < i ==> !Troubled(deployments[k])
      {
        var d := deployments[i];
        if d.missingRequests || d.rolling || (d.replicas > 0 && d.readyReplicas < d.replicas) {
          assert d in deployments && Troubled(d);
          return false;
        }
        i := i + 1;
      }
      i := 0;
      while i < |pods|
        invariant 0 <= i <= |pods| && forall k :: 0 <= k < i ==> !PodTroubled(pods[k])
      {
        var p := pods[i];
        if p.phase == "Pending" || p.phase == "Failed" || p.phase == "Unknown" || (p.phase == "Running" && !p.ready) {
          assert p in pods && PodTroubled(p);
          return false;
        }
        i := i + 1;
      }
      return true;
    }
  }

  lemma AddNothing(l: Lists)
    ensures AddAll(l, []) == l
  {}

  lemma AddFew(l: Lists, lines: seq<Line>)
    requires |lines| <= 2
    ensures AddAll(l, lines) == if |lines| == 0 then l else if |lines| == 1 then Add(l, lines[0]) else Add(Add(l, lines[0]), lines[1])
  {
    if |lines| > 0 {
      assert AddAll(l, lines) == Add(AddAll(l, lines[..|lines| - 1]), lines[|lines| - 1]);
      if |lines| == 2 {
        assert lines[..1][..0] == [];
        assert AddAll(l, lines[..1]) == Add(AddAll(l, lines[..1][..0]), lines[0]);
      }
    }
  }
}
