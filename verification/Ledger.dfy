/** The ledger service: ranking, probing and reserving over the store. */
module Ledger {
  import opened Amounts
  import opened Models
  import opened Placement
  import opened Sorting
  import opened Store

  datatype Scored = Scored(node: Node, score: int)

  function HigherFirst(): (Scored, Scored) -> bool {
    (x: Scored, y: Scored) => x.score >= y.score
  }

  datatype ProbeResult = ProbeResult(available: bool, fits: int, candidates: int, why: Option<Refusal>)

  ghost predicate WellKeyed(store: MemStore)
    reads store
  {
    forall id :: id in store.nodes ==> store.nodes[id].id == id
  }

  /** The outcome of trying to reserve on listed nodes, one after the other. */
  ghost predicate FirstTaker(before: State, after: State, listed: seq<Node>, a: Allocation, r: Outcome, k: nat) {
    && k <= |listed|
    && (forall j :: 0 <= j < k ==> before.ReserveOnNode(listed[j].id, a.(arch := listed[j].arch)).1 == Fail(ErrNoCapacity))
    && if k == |listed| then r == Fail(ErrNoCapacity) && after == before
       else (after, r) == before.ReserveOnNode(listed[k].id, a.(arch := listed[k].arch)) && r != Fail(ErrNoCapacity)
  }

  /** The candidates among listed nodes, in list order, with their scores. */
  function Kept(nodes: seq<Node>, q: Query): seq<Scored> {
    if nodes == [] then []
    else
      var n := nodes[|nodes| - 1];
      Kept(nodes[..|nodes| - 1], q) + if Candidate(n, q) then [Scored(n, Score(n))] else []
  }

  lemma {:induction false} KeptIsCandidates(nodes: seq<Node>, q: Query)
    requires forall i, j :: 0 <= i < j < |nodes| ==> nodes[i] != nodes[j]
    ensures forall x :: x in Kept(nodes, q) <==> x.score == Score(x.node) && x.node in nodes && Candidate(x.node, q)
    ensures forall i, j :: 0 <= i < j < |Kept(nodes, q)| ==> Kept(nodes, q)[i] != Kept(nodes, q)[j]
  {
    if nodes != [] {
      var k := |nodes| - 1;
      KeptIsCandidates(nodes[..k], q);
      assert nodes == nodes[..k] + [nodes[k]];
      assert nodes[k] !in nodes[..k];
    }
  }

  /** What is kept are the usable nodes, and their scores order them by preference. */
  ghost predicate KeepsUsable(nodes: seq<Node>, q: Query, kept: seq<Scored>) {
    && (forall x :: x in kept ==> x.node in nodes && Usable(x.node, q))
    && (forall n :: n in nodes && Usable(n, q) ==> exists i :: 0 <= i < |kept| && kept[i].node == n)
    && (forall i, j :: 0 <= i < |kept| && 0 <= j < |kept| ==> (kept[i].score <= kept[j].score <==> NoBetter(kept[i].node, kept[j].node)))
  }

  lemma {:induction false} KeptIsUsable(nodes: seq<Node>, q: Query)
    ensures KeepsUsable(nodes, q, Kept(nodes, q)) && forall x :: x in Kept(nodes, q) ==> x.score == Score(x.node)
  {
    if nodes != [] {
      var k := |nodes| - 1;
      KeptIsUsable(nodes[..k], q);
      CandidateIsUsable(nodes[k], q);
      assert nodes == nodes[..k] + [nodes[k]];
      var before, kept := Kept(nodes[..k], q), Kept(nodes, q);
      forall n | n in nodes && Usable(n, q) ensures exists i :: 0 <= i < |kept| && kept[i].node == n {
        if n in nodes[..k] {
          var i :| 0 <= i < |before| && before[i].node == n;
          assert kept[i].node == n;
        } else {
          assert kept[|before|].node == n;
        }
      }
    }
    var kept := Kept(nodes, q);
    forall i, j | 0 <= i < |kept| && 0 <= j < |kept| ensures kept[i].score <= kept[j].score <==> NoBetter(kept[i].node, kept[j].node) {
      assert kept[i] in kept && kept[j] in kept;
      ScoreIsPreference(kept[i].node, kept[j].node);
    }
  }

  /** Sorting what was kept of all nodes gives their ranking. */
  lemma SortedKeptIsRanking(nodes: map<Id, Node>, listed: seq<Node>, q: Query, sorted: seq<Scored>, out: seq<Node>)
    requires forall n :: n in listed <==> n.id in nodes && nodes[n.id] == n
    requires forall id :: id in nodes ==> nodes[id].id == id
    requires forall i, j :: 0 <= i < j < |listed| ==> listed[i] != listed[j]
    requires multiset(sorted) == multiset(Kept(listed, q)) && Sorted(sorted, HigherFirst())
    requires |out| == |sorted| && forall i :: 0 <= i < |out| ==> out[i] == sorted[i].node
    ensures Ranking(nodes, q, out) && |out| == |Kept(listed, q)|
  {
    KeptIsCandidates(listed, q);
    PermutationSameElements(Kept(listed, q), sorted);
    PermutationStaysDistinct(Kept(listed, q), sorted);
    forall n | n in out ensures n.id in nodes && nodes[n.id] == n && Candidate(n, q) {
      var i :| 0 <= i < |out| && out[i] == n;
      assert sorted[i] in Kept(listed, q);
    }
    forall id | id in nodes && Candidate(nodes[id], q) ensures nodes[id] in out {
      var x := Scored(nodes[id], Score(nodes[id]));
      assert x in sorted;
      var i :| 0 <= i < |sorted| && sorted[i] == x;
      assert out[i] == nodes[id];
    }
    forall i, j | 0 <= i < j < |out| ensures out[i] != out[j] && Score(out[i]) >= Score(out[j]) {
      assert sorted[i] in Kept(listed, q) && sorted[j] in Kept(listed, q);
      assert HigherFirst()(sorted[i], sorted[j]);
    }
  }

  /** How far a node gets through the filters before its free capacity is looked at. */
  function Stage(n: Node, q: Query): nat {
    if !Worker(n, q.arch) then 0 else if !n.ready then 1 else if !SupportsK8s(n.tags) then 2 else 3
  }

  predicate AnyReaches(nodes: seq<Node>, q: Query, stage: nat) {
    nodes != [] && (Stage(nodes[|nodes| - 1], q) >= stage || AnyReaches(nodes[..|nodes| - 1], q, stage))
  }

  lemma {:induction false} AnyReachesMeans(nodes: seq<Node>, q: Query, stage: nat)
    ensures AnyReaches(nodes, q, stage) <==> exists n :: n in nodes && Stage(n, q) >= stage
  {
    if nodes != [] {
      var k := |nodes| - 1;
      AnyReachesMeans(nodes[..k], q, stage);
      assert nodes == nodes[..k] + [nodes[k]];
    }
  }

  lemma ScanExplains(nodes: map<Id, Node>, listed: seq<Node>, q: Query)
    requires forall n :: n in listed <==> n.id in nodes && nodes[n.id] == n
    requires forall id :: id in nodes ==> nodes[id].id == id
    ensures WhyNot(nodes, q) ==
            if !AnyReaches(listed, q, 1) then NoWorker
            else if !AnyReaches(listed, q, 2) then NoneReady
            else if q.k8s && !AnyReaches(listed, q, 3) then NoK8sTag
            else if q.k8s then K8sFull
            else Full
  {
    AnyReachesMeans(listed, q, 1);
    AnyReachesMeans(listed, q, 2);
    AnyReachesMeans(listed, q, 3);
    assert forall id :: id in nodes ==> nodes[id] in listed;
  }

  class Service {
    const store: MemStore

    constructor (store: MemStore)
      ensures this.store == store
    {
      this.store := store;
    }

    /** The scan over the listed nodes: what is kept, and what was seen on the way. */
    method Scan(nodes: seq<Node>, q: Query) returns (scored: seq<Scored>, sawArch: bool, sawReady: bool, sawK8s: bool)
      ensures scored == Kept(nodes, q) && KeepsUsable(nodes, q, scored)
      ensures sawArch == AnyReaches(nodes, q, 1) && sawReady == AnyReaches(nodes, q, 2)
      ensures sawK8s == (q.k8s && AnyReaches(nodes, q, 3))
    {
      hide KeepsUsable;
      scored, sawArch, sawReady, sawK8s := [], false, false, false;
      var i := 0;
      while i < |nodes|
        invariant 0 <= i <= |nodes|
        invariant scored == Kept(nodes[..i], q)
        invariant sawArch == AnyReaches(nodes[..i], q, 1) && sawReady == AnyReaches(nodes[..i], q, 2)
        invariant sawK8s == (q.k8s && AnyReaches(nodes[..i], q, 3))
      {
        var n := nodes[i];
        assert nodes[..i + 1][..|nodes[..i + 1]| - 1] == nodes[..i];
        i := i + 1;
        if n.role == ROLE_CONTROL_PLANE {
          continue;
        }
        if q.arch != ARCH_ANY && n.arch != q.arch {
          continue;
        }
        sawArch := true;
        if !n.ready {
          continue;
        }
        sawReady := true;
        if q.k8s && !SupportsK8s(n.tags) {
          continue;
        }
        if q.k8s {
          sawK8s := true;
        }
        var free := n.allocatable.Minus(n.used);
        if free.cpu < q.size.cpu || free.mem < q.size.mem || free.disk < q.size.disk {
          continue;
        }
        var score := free.mem;
        if n.power == "mains" {
          score := score + MAINS_BONUS;
        }
        if n.fabricPath == "p2p" {
          score := score + P2P_BONUS;
        }
        scored := scored + [Scored(n, score)];
      }
      assert nodes[..i] == nodes;
      KeptIsUsable(nodes, q);
    }

    method PickCandidates(q: Query) returns (out: seq<Node>, why: Option<Refusal>)
      requires WellKeyed(store)
      ensures Ranking(store.nodes, q, out)
      ensures forall id :: id in store.nodes && Usable(store.nodes[id], q) ==> store.nodes[id] in out
      ensures forall i :: 0 <= i < |out| ==> out[i].id in store.nodes && store.nodes[out[i].id] == out[i] && Usable(out[i], q)
      ensures forall i, j :: 0 <= i < j < |out| ==> NoBetter(out[j], out[i])
      ensures why == if out == [] then Some(WhyNot(store.nodes, q)) else None
    {
      hide Usable, NoBetter, KeepsUsable, Kept, WhyNot, AnyReaches, Ranking, Preferred, Sorted;
      var nodes := store.ListNodes();
      var scored, sawArch, sawReady, sawK8s := Scan(nodes, q);
      ScanExplains(store.nodes, nodes, q);
      var sorted := Sort(scored, HigherFirst());
      out := seq(|sorted|, k requires 0 <= k < |sorted| => sorted[k].node);
      SortedKeptIsRanking(store.nodes, nodes, q, sorted, out);
      RankedByPreference(store.nodes, q, out);
      if |scored| == 0 {
        why := Some(
          if !sawArch then NoWorker
          else if !sawReady then NoneReady
          else if q.k8s && !sawK8s then NoK8sTag
          else if q.k8s then K8sFull
          else Full);
      } else {
        why := None;
      }
    }

    static method CountFits(nodes: seq<Node>, size: Amount) returns (total: int)
      ensures total == if size.Positive() then SeqFits(nodes, size) else 0
    {
      if size.cpu <= 0 || size.mem <= 0 || size.disk <= 0 {
        return 0;
      }
      total := 0;
      var i := 0;
      while i < |nodes|
        invariant 0 <= i <= |nodes| && total == SeqFits(nodes[..i], size)
      {
        assert nodes[..i + 1] == nodes[..i] + [nodes[i]];
        SeqFitsAppend(nodes[..i], nodes[i], size);
        var free := nodes[i].allocatable.Minus(nodes[i].used);
        var nCPU, nMem, nDisk := Quotient(free.cpu, size.cpu), Quotient(free.mem, size.mem), Quotient(free.disk, size.disk);
        var nFit := nCPU;
        if nMem < nFit {
          nFit := nMem;
        }
        if nDisk < nFit {
          nFit := nDisk;
        }
        if nFit > 0 {
          total := total + nFit;
        }
        i := i + 1;
      }
      assert nodes[..i] == nodes;
    }

    /** The dry run: nothing changes, and the count is the number of copies the nodes can still take. */
    method Probe(q: Query) returns (p: ProbeResult)
      requires WellKeyed(store)
      ensures q.size.Positive() ==> p.fits == Fits(store.nodes, q) && p.available == SomeFits(store.nodes, q)
      ensures !q.size.Positive() ==> p.fits == 0 && !p.available
      ensures p.candidates == 0 <==> !SomeFits(store.nodes, q)
      ensures p.why == if SomeFits(store.nodes, q) then None else Some(WhyNot(store.nodes, q))
    {
      var candidates, why := PickCandidates(q);
      RankingAgreesWithBest(store.nodes, q, candidates);
      if q.size.Positive() {
        RankedCountIsFits(store.nodes, q, candidates);
        FitsCountsCandidates(store.nodes, q);
      }
      if why.Some? {
        return ProbeResult(false, 0, 0, why);
      }
      var fits := CountFits(candidates, q.size);
      return ProbeResult(fits > 0, fits, |candidates|, None);
    }

    /** Tries the listed nodes in order; the list may be older than the store. */
    method TryListed(listed: seq<Node>, a: Allocation) returns (r: Outcome, kept: Allocation, ghost k: nat)
      modifies store
      ensures FirstTaker(old(store.View()), store.View(), listed, a, r, k)
      ensures r == Done ==> k < |listed| && kept == a.(node := listed[k].id, arch := listed[k].arch, state := Reserved)
    {
      kept := a;
      k := 0;
      var i := 0;
      while i < |listed|
        invariant 0 <= i <= |listed| && k == i && store.View() == old(store.View())
        invariant forall j :: 0 <= j < i ==>
          store.View().ReserveOnNode(listed[j].id, a.(arch := listed[j].arch)).1 == Fail(ErrNoCapacity)
      {
        var attempt := a.(arch := listed[i].arch);
        r := store.ReserveOnNode(listed[i].id, attempt);
        if r == Fail(ErrNoCapacity) {
          i, k := i + 1, k + 1;
          continue;
        }
        if r == Done {
          kept := attempt.(node := listed[i].id, state := Reserved);
        }
        return;
      }
      return Fail(ErrNoCapacity), kept, k;
    }

    /** newId is the id the program draws at random. */
    method Reserve(project: Id, size: Amount, arch: string, k8s: bool, newId: Id) returns (r: Outcome, kept: Allocation)
      requires WellKeyed(store)
      modifies store
      ensures var q := Query(NormalArch(arch), size, k8s);
              if SomeFits(old(store.nodes), q) then
                r == Done && Best(old(store.nodes), q, kept.node)
                && kept.arch == (if NormalArch(arch) == ARCH_ANY then old(store.nodes)[kept.node].arch else arch)
                && store.View() == old(store.View()).Take(kept.node,
                     Allocation(newId, project, kept.node, size, if k8s then kept.arch else NormalArch(arch), Reserved))
              else r == Fail(ErrNoCapacity) && store.View() == old(store.View())
      ensures r == Done ==> Preferred(old(store.nodes), Query(NormalArch(arch), size, k8s), kept.node)
    {
      hide Preferred, Usable, NoBetter;
      var wanted := NormalArch(arch);
      var q := Query(wanted, size, k8s);
      var a := Allocation(newId, project, NIL, size, wanted, Reserved);
      if !k8s {
        r, kept := store.ReserveBestNode(wanted, a);
        if r == Done {
          var n := store.nodes[kept.node];
          if kept.arch == ARCH_ANY || kept.arch == "" {
            kept := kept.(arch := n.arch);
          }
          return;
        }
      }
      var candidates, why := PickCandidates(q);
      RankingAgreesWithBest(store.nodes, q, candidates);
      if why.Some? {
        return Fail(ErrNoCapacity), a;
      }
      assert candidates[0] in candidates;
      BestIsPreferred(store.nodes, q, candidates[0].id);
      ghost var k;
      r, kept, k := TryListed(candidates, a);
    }

    method Release(id: Id) returns (r: Outcome)
      modifies store
      ensures (store.View(), r) == old(store.View()).Release(id)
    {
      r := store.ReleaseAllocation(id);
    }

    method Expand(id: Id, d: Amount) returns (r: Outcome)
      modifies store
      ensures (store.View(), r) == old(store.View()).Expand(id, d)
    {
      r := store.ExpandAllocation(id, d);
    }

    method Shrink(id: Id, d: Amount) returns (r: Outcome)
      modifies store
      ensures (store.View(), r) ==
              if d.NonNegative() then old(store.View()).Expand(id, d.Neg()) else (old(store.View()), Fail(ErrInvalidInput))
    {
      if d.cpu < 0 || d.mem < 0 || d.disk < 0 {
        return Fail(ErrInvalidInput);
      }
      r := store.ExpandAllocation(id, d.Neg());
    }
  }

  /** One successful Reserve, as the method above leaves it; ties between best nodes are broken either way. */
  ghost predicate Reserves(s: State, t: State, q: Query) {
    exists node: Id, a: Allocation :: Best(s.nodes, q, node) && a.id !in s.allocs && a.size == q.size && t == s.Take(node, a)
  }

  /**
   The probe is exact: along any sequence of successful reservations of the same query the count drops by one
   each time, and the next reservation succeeds exactly while fewer than the first count have been made.
   */
  lemma {:induction false} ProbeIsExact(run: seq<State>, q: Query)
    requires q.size.Positive() && |run| > 0
    requires forall i :: 0 <= i < |run| - 1 ==> Reserves(run[i], run[i + 1], q)
    ensures forall i :: 0 <= i < |run| ==> Fits(run[i].nodes, q) == Fits(run[0].nodes, q) - i
    ensures |run| - 1 <= Fits(run[0].nodes, q)
    ensures SomeFits(run[|run| - 1].nodes, q) <==> |run| - 1 < Fits(run[0].nodes, q)
    decreases |run|
  {
    var last := |run| - 1;
    if last > 0 {
      ProbeIsExact(run[..last], q);
      assert run[..last][last - 1] == run[last - 1];
      ReserveDropsFits(run[last - 1], run[last], q);
    }
    FitsCountsCandidates(run[last].nodes, q);
    hide Fits, SomeFits, Reserves;
    forall i | 0 <= i < |run| ensures Fits(run[i].nodes, q) == Fits(run[0].nodes, q) - i {
      if i < last {
        assert run[..last][i] == run[i];
      }
    }
  }

  lemma ReserveDropsFits(s: State, t: State, q: Query)
    requires q.size.Positive() && Reserves(s, t, q)
    ensures Fits(t.nodes, q) == Fits(s.nodes, q) - 1
  {
    var node: Id, a: Allocation :| Best(s.nodes, q, node) && a.id !in s.allocs && a.size == q.size && t == s.Take(node, a);
    FitsDropByOne(s.nodes, q, node);
  }

  /**
   Only Reserve turns an empty architecture into any. A probe for the empty one reports nothing on registered nodes,
   which always name theirs, so it is exact only when nothing fits anyway.
   */
  lemma EmptyArchProbe(nodes: map<Id, Node>, q: Query)
    requires q.size.Positive() && q.arch == ""
    requires forall id :: id in nodes ==> nodes[id].arch != ""
    ensures Fits(nodes, q) == 0
    ensures Fits(nodes, q) == Fits(nodes, q.(arch := NormalArch(q.arch))) <==> !SomeFits(nodes, q.(arch := NormalArch(q.arch)))
  {
    FitsCountsCandidates(nodes, q);
    FitsCountsCandidates(nodes, q.(arch := NormalArch(q.arch)));
    hide Fits;
  }
}
