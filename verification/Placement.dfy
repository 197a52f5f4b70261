/** Which nodes can take a request, how they are ranked, and how many requests fit. */
module Placement {
  import opened Amounts
  import opened Models
  import opened Sorting
  import Text

  /** arch is already normalised: "any" or an architecture. */
  datatype Query = Query(arch: string, size: Amount, k8s: bool)

  const K8S_TAGS := {"k3s", "k8s", "kubernetes", "both", "runtime=k3s", "runtime=k8s", "runtime=both"}

  predicate SupportsK8s(tags: seq<string>) { exists t :: t in tags && Text.Canon(t) in K8S_TAGS }

  predicate Worker(n: Node, arch: string) {
    n.role != ROLE_CONTROL_PLANE && (arch == ARCH_ANY || n.arch == arch)
  }

  predicate Candidate(n: Node, q: Query) {
    Worker(n, q.arch) && n.ready && (q.k8s ==> SupportsK8s(n.tags)) && q.size.Within(n.Free())
  }

  const MAINS_BONUS := 0x100_0000_0000
  const P2P_BONUS := 0x4000_0000

  function Score(n: Node): int {
    n.Free().mem + (if n.power == "mains" then MAINS_BONUS else 0) + (if n.fabricPath == "p2p" then P2P_BONUS else 0)
  }

  /** A candidate that no candidate outscores. */
  ghost predicate Best(nodes: map<Id, Node>, q: Query, id: Id) {
    && id in nodes && Candidate(nodes[id], q)
    && forall other :: other in nodes && Candidate(nodes[other], q) ==> Score(nodes[other]) <= Score(nodes[id])
  }

  ghost predicate SomeFits(nodes: map<Id, Node>, q: Query) {
    exists id :: id in nodes && Candidate(nodes[id], q)
  }

  /** The candidates, all of them, each once, the highest score first. */
  ghost predicate Ranking(nodes: map<Id, Node>, q: Query, out: seq<Node>) {
    && (forall n :: n in out ==> n.id in nodes && nodes[n.id] == n && Candidate(n, q))
    && (forall id :: id in nodes && Candidate(nodes[id], q) ==> nodes[id] in out)
    && (forall i, j :: 0 <= i < j < |out| ==> out[i] != out[j] && Score(out[i]) >= Score(out[j]))
  }

  /** Why no node was found. */
  datatype Refusal = NoWorker | NoneReady | NoK8sTag | K8sFull | Full

  function WhyNot(nodes: map<Id, Node>, q: Query): Refusal {
    if !exists id :: id in nodes && Worker(nodes[id], q.arch) then NoWorker
    else if !exists id :: id in nodes && Worker(nodes[id], q.arch) && nodes[id].ready then NoneReady
    else if q.k8s then
      if !exists id :: id in nodes && Worker(nodes[id], q.arch) && nodes[id].ready && SupportsK8s(nodes[id].tags)
      then NoK8sTag else K8sFull
    else Full
  }

  /** The head of the sorted list is a best node, as the one-pass search finds it; one is empty exactly when the other is. */
  lemma RankingAgreesWithBest(nodes: map<Id, Node>, q: Query, out: seq<Node>)
    requires Ranking(nodes, q, out)
    ensures out == [] <==> !SomeFits(nodes, q)
    ensures out != [] ==> Best(nodes, q, out[0].id)
    ensures (exists id :: Best(nodes, q, id)) <==> SomeFits(nodes, q)
  {
    if SomeFits(nodes, q) {
      var id :| id in nodes && Candidate(nodes[id], q);
      assert nodes[id] in out;
    }
    if out != [] {
      assert out[0] in out;
      forall other | other in nodes && Candidate(nodes[other], q) ensures Score(nodes[other]) <= Score(out[0]) {
        var i :| 0 <= i < |out| && out[i] == nodes[other];
      }
      assert Best(nodes, q, out[0].id);
    }
  }

  /** With less than 2^40 - 2^30 bytes free everywhere, a battery node is chosen only when no mains node fits. */
  lemma MainsBeforeBattery(nodes: map<Id, Node>, q: Query, id: Id)
    requires Best(nodes, q, id) && nodes[id].power != "mains" && 0 <= q.size.mem
    requires forall k :: k in nodes ==> nodes[k].Free().mem < MAINS_BONUS - P2P_BONUS
    ensures forall k :: k in nodes && Candidate(nodes[k], q) ==> nodes[k].power != "mains"
  {
    forall k | k in nodes && Candidate(nodes[k], q) ensures nodes[k].power != "mains" {
      assert Score(nodes[k]) <= Score(nodes[id]);
    }
  }

  // ----- what being the best comes down to

  function FreeMem(n: Node): int { n.allocatable.mem - n.used.mem }

  predicate Mains(n: Node) { n.power == "mains" }

  predicate Direct(n: Node) { n.fabricPath == "p2p" }

  /** A ready worker node of the architecture that has the size free in every dimension. */
  predicate Usable(n: Node, q: Query) {
    && n.ready && n.role != "control-plane" && (q.arch == "any" || n.arch == q.arch)
    && (q.k8s ==> exists t :: t in n.tags
                              && Text.Canon(t) in {"k3s", "k8s", "kubernetes", "both", "runtime=k3s", "runtime=k8s", "runtime=both"})
    && n.used.cpu + q.size.cpu <= n.allocatable.cpu
    && n.used.mem + q.size.mem <= n.allocatable.mem
    && n.used.disk + q.size.disk <= n.allocatable.disk
  }

  /**
   m is not to be preferred to n: among nodes of the same power and fabric path the one with more free memory wins; a
   direct path is worth 1 GiB of memory and mains power 1 TiB.
   */
  predicate NoBetter(m: Node, n: Node) {
    && (Mains(m) == Mains(n) && Direct(m) == Direct(n) ==> FreeMem(m) <= FreeMem(n))
    && (Mains(m) == Mains(n) && !Direct(m) && Direct(n) ==> FreeMem(m) <= FreeMem(n) + 1_073_741_824)
    && (Mains(m) == Mains(n) && Direct(m) && !Direct(n) ==> FreeMem(m) + 1_073_741_824 <= FreeMem(n))
    && (!Mains(m) && Mains(n) && Direct(m) == Direct(n) ==> FreeMem(m) <= FreeMem(n) + 1_099_511_627_776)
    && (Mains(m) && !Mains(n) && Direct(m) == Direct(n) ==> FreeMem(m) + 1_099_511_627_776 <= FreeMem(n))
    && (!Mains(m) && Mains(n) && !Direct(m) && Direct(n) ==> FreeMem(m) <= FreeMem(n) + 1_100_585_369_600)
    && (Mains(m) && !Mains(n) && Direct(m) && !Direct(n) ==> FreeMem(m) + 1_100_585_369_600 <= FreeMem(n))
    && (!Mains(m) && Mains(n) && Direct(m) && !Direct(n) ==> FreeMem(m) <= FreeMem(n) + 1_098_437_885_952)
    && (Mains(m) && !Mains(n) && !Direct(m) && Direct(n) ==> FreeMem(m) + 1_098_437_885_952 <= FreeMem(n))
  }

  /** A usable node that no usable node is to be preferred to. */
  ghost predicate Preferred(nodes: map<Id, Node>, q: Query, id: Id) {
    && id in nodes && Usable(nodes[id], q)
    && forall other :: other in nodes && Usable(nodes[other], q) ==> NoBetter(nodes[other], nodes[id])
  }

  lemma CandidateIsUsable(n: Node, q: Query)
    ensures Candidate(n, q) <==> Usable(n, q)
  {}

  lemma ScoreIsPreference(m: Node, n: Node)
    ensures Score(m) <= Score(n) <==> NoBetter(m, n)
  {}

  /** Best nodes are exactly the preferred ones, and there is one exactly when some node is usable. */
  lemma BestIsPreferred(nodes: map<Id, Node>, q: Query, id: Id)
    ensures Best(nodes, q, id) <==> Preferred(nodes, q, id)
    ensures SomeFits(nodes, q) <==> exists other :: other in nodes && Usable(nodes[other], q)
  {
    forall other | other in nodes ensures Candidate(nodes[other], q) <==> Usable(nodes[other], q) {
      CandidateIsUsable(nodes[other], q);
    }
    forall m: Node, n: Node ensures Score(m) <= Score(n) <==> NoBetter(m, n) {
      ScoreIsPreference(m, n);
    }
    hide Score, NoBetter, Candidate, Usable;
  }

  /** A ranking holds exactly the usable nodes, the head is preferred, and nobody is preferred to one listed before. */
  lemma RankedByPreference(nodes: map<Id, Node>, q: Query, out: seq<Node>)
    requires Ranking(nodes, q, out)
    ensures forall id :: id in nodes && Usable(nodes[id], q) ==> nodes[id] in out
    ensures forall i :: 0 <= i < |out| ==> out[i].id in nodes && nodes[out[i].id] == out[i] && Usable(out[i], q)
    ensures forall i, j :: 0 <= i < j < |out| ==> out[i] != out[j] && NoBetter(out[j], out[i])
    ensures out != [] ==> Preferred(nodes, q, out[0].id)
  {
    forall n: Node ensures Candidate(n, q) <==> Usable(n, q) {
      CandidateIsUsable(n, q);
    }
    forall m: Node, n: Node ensures Score(m) <= Score(n) <==> NoBetter(m, n) {
      ScoreIsPreference(m, n);
    }
    RankingAgreesWithBest(nodes, q, out);
    if out != [] {
      BestIsPreferred(nodes, q, out[0].id);
    }
    hide Score, NoBetter, Candidate, Usable, Best, Preferred;
  }

  /** A worker node of the architecture, whatever its state. */
  predicate OfArch(n: Node, arch: string) { n.role != "control-plane" && (arch == "any" || n.arch == arch) }

  /** Why nothing was found: the first of the conditions that no node meets, in the order of the filters. */
  lemma RefusalExactly(nodes: map<Id, Node>, q: Query)
    ensures var worker := exists id :: id in nodes && OfArch(nodes[id], q.arch);
            var ready := exists id :: id in nodes && OfArch(nodes[id], q.arch) && nodes[id].ready;
            var tagged := exists id :: id in nodes && OfArch(nodes[id], q.arch) && nodes[id].ready && SupportsK8s(nodes[id].tags);
            && (WhyNot(nodes, q) == NoWorker <==> !worker)
            && (WhyNot(nodes, q) == NoneReady <==> worker && !ready)
            && (WhyNot(nodes, q) == NoK8sTag <==> ready && q.k8s && !tagged)
            && (WhyNot(nodes, q) == K8sFull <==> q.k8s && tagged)
            && (WhyNot(nodes, q) == Full <==> ready && !q.k8s)
  {
    hide SupportsK8s;
    forall id | id in nodes ensures OfArch(nodes[id], q.arch) <==> Worker(nodes[id], q.arch) {
    }
    hide OfArch, Worker;
  }

  /** How many copies of size fit into free. Go truncates, which on these non-negative operands is plain division. */
  function Copies(free: Amount, size: Amount): nat
    requires size.Positive() && size.Within(free)
  {
    Min(free.cpu / size.cpu, Min(free.mem / size.mem, free.disk / size.disk))
  }

  function Min(a: int, b: int): int { if b < a then b else a }

  function FitOn(n: Node, q: Query): nat
    requires q.size.Positive()
  {
    if Candidate(n, q) then Copies(n.Free(), q.size) else 0
  }

  ghost function FitMap(nodes: map<Id, Node>, q: Query): map<Id, int>
    requires q.size.Positive()
  {
    map id | id in nodes :: FitOn(nodes[id], q)
  }

  /** The number a probe reports: how often the request would fit over all nodes. */
  ghost function Fits(nodes: map<Id, Node>, q: Query): int
    requires q.size.Positive()
  {
    Total(FitMap(nodes, q))
  }

  lemma TakeOneQuotient(a: int, b: int)
    requires 0 < b <= a
    ensures (a - b) / b == a / b - 1 && 1 <= a / b
  {
    assert a == b * (a / b) + a % b;
    assert a - b == b * (a / b - 1) + a % b;
    QuotientIsUnique(a - b, b, a / b - 1, a % b);
  }

  lemma QuotientIsUnique(a: int, b: int, k: int, r: int)
    requires 0 < b && a == b * k + r && 0 <= r < b
    ensures a / b == k
  {
    var d := k - a / b;
    assert b * d == a % b - r;
    MultipleIsFar(b, d);
  }

  lemma MultipleIsFar(b: int, d: int)
    requires 0 < b
    ensures d >= 1 ==> b * d >= b
    ensures d <= -1 ==> b * d <= -b
  {}

  lemma SmallQuotient(a: int, b: int)
    requires 0 < b && 0 <= a < b
    ensures a / b == 0
  {}

  /** Placing one copy on a candidate leaves room for one copy less. */
  lemma FitDropsByOne(n: Node, q: Query)
    requires q.size.Positive() && Candidate(n, q)
    ensures 1 <= FitOn(n, q) && FitOn(n.(used := n.used.Plus(q.size)), q) == FitOn(n, q) - 1
  {
    var free, size := n.Free(), q.size;
    var after := n.(used := n.used.Plus(size));
    assert after.Free() == free.Minus(size);
    TakeOneQuotient(free.cpu, size.cpu);
    TakeOneQuotient(free.mem, size.mem);
    TakeOneQuotient(free.disk, size.disk);
    if !size.Within(after.Free()) {
      if free.cpu - size.cpu < size.cpu { SmallQuotient(free.cpu - size.cpu, size.cpu); }
      if free.mem - size.mem < size.mem { SmallQuotient(free.mem - size.mem, size.mem); }
      if free.disk - size.disk < size.disk { SmallQuotient(free.disk - size.disk, size.disk); }
    }
  }

  lemma FitsDropByOne(nodes: map<Id, Node>, q: Query, id: Id)
    requires q.size.Positive() && id in nodes && Candidate(nodes[id], q)
    ensures Fits(nodes[id := nodes[id].(used := nodes[id].used.Plus(q.size))], q) == Fits(nodes, q) - 1
  {
    var after := nodes[id].(used := nodes[id].used.Plus(q.size));
    FitDropsByOne(nodes[id], q);
    assert FitMap(nodes[id := after], q) == FitMap(nodes, q)[id := FitOn(after, q)];
    TotalUpdate(FitMap(nodes, q), id, FitOn(after, q));
  }

  /** The request fits somewhere exactly when the count is not zero. */
  lemma FitsCountsCandidates(nodes: map<Id, Node>, q: Query)
    requires q.size.Positive()
    ensures 0 <= Fits(nodes, q)
    ensures Fits(nodes, q) > 0 <==> SomeFits(nodes, q)
  {
    var m := FitMap(nodes, q);
    TotalNonNegative(m);
    if SomeFits(nodes, q) {
      var id :| id in nodes && Candidate(nodes[id], q);
      FitDropsByOne(nodes[id], q);
      assert m[id] <= Total(m);
    } else {
      TotalOfZeros(m);
    }
  }

  /** Go's division: truncated toward zero. */
  function Quotient(a: int, b: int): int
    requires 0 < b
  {
    if a >= 0 then a / b else -((-a) / b)
  }

  function SeqFit(n: Node, size: Amount): nat
    requires size.Positive()
  {
    var free := n.Free();
    var fit := Min(Quotient(free.cpu, size.cpu), Min(Quotient(free.mem, size.mem), Quotient(free.disk, size.disk)));
    if fit > 0 then fit else 0
  }

  function SeqFits(nodes: seq<Node>, size: Amount): nat
    requires size.Positive()
  {
    if nodes == [] then 0 else SeqFit(nodes[0], size) + SeqFits(nodes[1..], size)
  }

  lemma {:induction false} SeqFitsAppend(nodes: seq<Node>, n: Node, size: Amount)
    requires size.Positive()
    ensures SeqFits(nodes + [n], size) == SeqFits(nodes, size) + SeqFit(n, size)
  {
    if nodes == [] {
      assert nodes + [n] == [n];
    } else {
      assert (nodes + [n])[1..] == nodes[1..] + [n];
      SeqFitsAppend(nodes[1..], n, size);
    }
  }

  lemma {:induction false} SeqTotal(out: seq<Node>, m: map<Id, int>, size: Amount)
    requires size.Positive()
    requires forall i, j :: 0 <= i < j < |out| ==> out[i].id != out[j].id
    requires forall n :: n in out ==> n.id in m && m[n.id] == SeqFit(n, size)
    requires forall id :: id in m && m[id] != 0 ==> exists n :: n in out && n.id == id
    ensures SeqFits(out, size) == Total(m)
  {
    if out == [] {
      TotalOfZeros(m);
    } else {
      var n, rest := out[0], out[1..];
      assert n in out;
      TotalSplit(m, n.id);
      assert forall i :: 0 <= i < |rest| ==> rest[i] == out[i + 1];
      forall id | id in m - {n.id} && (m - {n.id})[id] != 0 ensures exists k :: k in rest && k.id == id {
        var k :| k in out && k.id == id;
        assert k in rest;
      }
      SeqTotal(rest, m - {n.id}, size);
    }
  }

  /** Counting over the ranked candidates gives the total over all nodes. */
  lemma RankedCountIsFits(nodes: map<Id, Node>, q: Query, out: seq<Node>)
    requires q.size.Positive() && Ranking(nodes, q, out)
    requires forall id :: id in nodes ==> nodes[id].id == id
    ensures SeqFits(out, q.size) == Fits(nodes, q)
  {
    forall i, j | 0 <= i < j < |out| ensures out[i].id != out[j].id {
      assert out[i] in out && out[j] in out;
    }
    SeqTotal(out, FitMap(nodes, q), q.size);
  }
}
