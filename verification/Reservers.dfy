/**
 Many Reserve calls at once. Each call is split at its store accesses: the one-pass reservation, the listing of
 nodes, every attempt on a listed (and by then possibly stale) node, and the final read. Between two accesses
 anything else may happen to the ledger.
 */
module Reservers {
  import opened Amounts
  import opened Models
  import opened Placement
  import opened Store
  import C = Conservation

  datatype Pc =
    | Start
    | Listing
    | Trying(listed: seq<Node>)
    | Checking(id: Id)
    | Returned(id: Id)
    | GaveUp

  /** One call; inserted collects the allocations that its own steps added to the store. */
  datatype Call = Call(q: Query, project: Id, pc: Pc, inserted: set<Id>)

  datatype System = System(store: State, calls: map<nat, Call>)

  function Fresh(c: Call, id: Id, arch: string): Allocation {
    Allocation(id, c.project, NIL, c.q.size, arch, Reserved)
  }

  /** What one access does to the store and to the call's control point. */
  ghost predicate Access(s: State, c: Call, t: State, pc: Pc, newId: Id) {
    match c.pc
    case Start =>
      if !c.q.k8s && SomeFits(s.nodes, c.q)
      then exists node: Id :: Best(s.nodes, c.q, node) && t == s.Take(node, Fresh(c, newId, c.q.arch)) && pc == Checking(newId)
      else t == s && pc == Listing
    case Listing =>
      t == s && exists out: seq<Node> :: Ranking(s.nodes, c.q, out) && pc == if out == [] then GaveUp else Trying(out)
    case Trying(listed) =>
      if listed == [] then t == s && pc == GaveUp
      else
        var (after, r) := s.ReserveOnNode(listed[0].id, Fresh(c, newId, listed[0].arch));
        && t == after
        && pc == if r == Done then Checking(newId)
                 else if r == Fail(ErrNoCapacity) then Trying(listed[1..])
                 else GaveUp
    case Checking(id) =>
      t == s && pc == if id in s.allocs && s.allocs[id].node in s.nodes then Returned(id) else GaveUp
    case Returned(_) => t == s && pc == c.pc
    case GaveUp => t == s && pc == GaveUp
  }

  ghost predicate CallStep(x: System, y: System, k: nat, newId: Id) {
    && k in x.calls && newId !in x.store.allocs
    && k in y.calls
    && Access(x.store, x.calls[k], y.store, y.calls[k].pc, newId)
    && y.calls == x.calls[k := x.calls[k].(pc := y.calls[k].pc,
                                           inserted := x.calls[k].inserted + (y.store.allocs.Keys - x.store.allocs.Keys))]
  }

  predicate Names(step: C.Step, id: Id) {
    match step
    case Reserve(_, a) => a.id == id
    case Release(r) => r == id
    case Expand(r, _) => r == id
    case _ => false
  }

  /** Any other ledger step, except one that names an allocation whose call has not returned yet. */
  ghost predicate OtherStep(x: System, y: System, step: C.Step) {
    && C.Legal(x.store, step)
    && (forall k :: k in x.calls && x.calls[k].pc.Checking? ==> !Names(step, x.calls[k].pc.id))
    && y == x.(store := C.Next(x.store, step))
  }

  ghost predicate Begin(x: System, y: System, k: nat, c: Call) {
    k !in x.calls && c.pc == Start && c.inserted == {} && c.q.size.NonNegative() && y == x.(calls := x.calls[k := c])
  }

  datatype Label = ByCall(k: nat, newId: Id) | ByOther(step: C.Step) | ByBegin(k: nat, c: Call)

  ghost predicate Step(x: System, y: System, l: Label) {
    match l
    case ByCall(k, newId) => CallStep(x, y, k, newId)
    case ByOther(step) => OtherStep(x, y, step)
    case ByBegin(k, c) => Begin(x, y, k, c)
  }

  /** While a call has found nothing it has inserted nothing; once it found something, exactly that. */
  ghost predicate CallOk(s: State, c: Call) {
    && c.q.size.NonNegative()
    && match c.pc
       case Checking(id) => c.inserted == {id} && s.Live(id) && s.allocs[id].size == c.q.size
       case Returned(id) => c.inserted == {id}
       case _ => c.inserted == {}
  }

  ghost predicate Inv(x: System) {
    C.Conserved(x.store) && forall k :: k in x.calls ==> CallOk(x.store, x.calls[k])
  }

  /** An access either leaves the store alone or is one reservation of the wanted size on one node. */
  lemma AccessIsReservation(s: State, c: Call, t: State, pc: Pc, newId: Id)
    requires Access(s, c, t, pc, newId) && newId !in s.allocs
    ensures if pc.Checking? && !c.pc.Checking? then
              pc.id == newId && exists node: Id, a: Allocation ::
                a.id == newId && a.size == c.q.size && s.ReserveOnNode(node, a) == (t, Done)
            else t == s
  {
    if c.pc.Start? && t != s {
      var node: Id :| Best(s.nodes, c.q, node) && t == s.Take(node, Fresh(c, newId, c.q.arch));
      assert s.ReserveOnNode(node, Fresh(c, newId, c.q.arch)) == (t, Done);
    } else if c.pc.Trying? && t != s {
      assert s.ReserveOnNode(c.pc.listed[0].id, Fresh(c, newId, c.pc.listed[0].arch)) == (t, Done);
    }
  }

  lemma ReservationKeepsOthers(s: State, node: Id, a: Allocation, t: State)
    requires a.id !in s.allocs && s.ReserveOnNode(node, a) == (t, Done)
    ensures t.allocs.Keys - s.allocs.Keys == {a.id} && t.Live(a.id) && t.allocs[a.id].size == a.size
    ensures forall id :: id in s.allocs ==> id in t.allocs && t.allocs[id] == s.allocs[id]
  {}

  lemma ReservationIsSafe(s: State, node: Id, a: Allocation, t: State)
    requires C.Conserved(s) && a.id !in s.allocs && a.size.NonNegative() && s.ReserveOnNode(node, a) == (t, Done)
    ensures C.Conserved(t) && C.NeverOverdrawn(s, t)
  {
    hide C.Conserved, C.NeverOverdrawn;
    C.StepConserves(s, C.Reserve(node, a));
    C.StepNeverOversells(s, C.Reserve(node, a));
  }

  lemma AccessKeepsCall(s: State, c: Call, t: State, pc: Pc, newId: Id)
    requires C.Placed(s) && CallOk(s, c) && Access(s, c, t, pc, newId) && newId !in s.allocs
    ensures CallOk(t, c.(pc := pc, inserted := c.inserted + (t.allocs.Keys - s.allocs.Keys)))
    ensures forall id :: id in s.allocs ==> id in t.allocs && t.allocs[id] == s.allocs[id]
  {
    AccessIsReservation(s, c, t, pc, newId);
    if pc.Checking? && !c.pc.Checking? {
      var node: Id, a: Allocation :| a.id == newId && a.size == c.q.size && s.ReserveOnNode(node, a) == (t, Done);
      ReservationKeepsOthers(s, node, a, t);
      hide State.ReserveOnNode;
    } else {
      assert t.allocs.Keys - s.allocs.Keys == {};
      hide State.ReserveOnNode, Ranking, SomeFits;
    }
  }

  lemma AccessIsSafe(s: State, c: Call, t: State, pc: Pc, newId: Id)
    requires C.Conserved(s) && CallOk(s, c) && Access(s, c, t, pc, newId) && newId !in s.allocs
    ensures C.Conserved(t) && C.NeverOverdrawn(s, t)
  {
    AccessIsReservation(s, c, t, pc, newId);
    if pc.Checking? && !c.pc.Checking? {
      var node: Id, a: Allocation :| a.id == newId && a.size == c.q.size && s.ReserveOnNode(node, a) == (t, Done);
      ReservationIsSafe(s, node, a, t);
    }
    hide C.Conserved;
  }

  lemma CallStepKeepsInv(x: System, y: System, k: nat, newId: Id)
    requires Inv(x) && CallStep(x, y, k, newId)
    ensures Inv(y) && C.NeverOverdrawn(x.store, y.store)
  {
    var c, pc := x.calls[k], y.calls[k].pc;
    assert CallOk(x.store, c);
    hide C.Indexed, C.Balanced, C.Placed, C.NeverOverdrawn, Access;
    AccessIsSafe(x.store, c, y.store, pc, newId);
    AccessKeepsCall(x.store, c, y.store, pc, newId);
    forall j | j in y.calls ensures CallOk(y.store, y.calls[j]) {
      if j != k {
        assert y.calls[j] == x.calls[j] && CallOk(x.store, x.calls[j]);
        UntouchedCall(x.store, y.store, x.calls[j]);
      }
      hide CallOk;
    }
    hide CallOk;
  }

  lemma UntouchedCall(s: State, t: State, c: Call)
    requires CallOk(s, c) && forall id :: id in s.allocs ==> id in t.allocs && t.allocs[id] == s.allocs[id]
    ensures CallOk(t, c)
  {}

  lemma OtherStepKeepsInv(x: System, y: System, step: C.Step)
    requires Inv(x) && OtherStep(x, y, step)
    ensures Inv(y) && C.NeverOverdrawn(x.store, y.store)
  {
    C.StepConserves(x.store, step);
    C.StepNeverOversells(x.store, step);
    forall k | k in y.calls ensures CallOk(y.store, y.calls[k]) {
      assert CallOk(x.store, x.calls[k]);
      if x.calls[k].pc.Checking? {
        UnnamedStaysLive(x.store, step, x.calls[k].pc.id);
      }
      hide C.Conserved, C.Next, C.Legal, C.NeverOverdrawn;
    }
    hide C.Conserved, C.Next, C.Legal, C.NeverOverdrawn;
  }

  lemma UnnamedStaysLive(s: State, step: C.Step, id: Id)
    requires C.Conserved(s) && C.Legal(s, step) && !Names(step, id) && s.Live(id)
    ensures var t := C.Next(s, step); t.Live(id) && t.allocs[id].size == s.allocs[id].size
  {
    hide C.Load, C.Balanced, C.Indexed;
    match step
    case Reserve(_, _) =>
    case Activate(_) =>
    case Release(_) =>
    case Expand(_, _) =>
    case Upsert(_) =>
    case DeleteNode(node) =>
  }

  lemma StepKeepsInv(x: System, y: System, l: Label)
    requires Inv(x) && Step(x, y, l)
    ensures Inv(y) && C.NeverOverdrawn(x.store, y.store)
  {
    match l
    case ByCall(k, newId) => CallStepKeepsInv(x, y, k, newId);
    case ByOther(step) => OtherStepKeepsInv(x, y, step);
    case ByBegin(k, c) => hide C.Conserved;
  }

  ghost predicate StepAt(run: seq<System>, labels: seq<Label>, i: nat)
    requires |run| == |labels| + 1 && i < |labels|
  {
    Step(run[i], run[i + 1], labels[i])
  }

  ghost predicate CallsAccounted(x: System) {
    forall k :: k in x.calls ==>
      && (x.calls[k].pc.Returned? ==> x.calls[k].inserted == {x.calls[k].pc.id})
      && (x.calls[k].pc.GaveUp? ==> x.calls[k].inserted == {})
  }

  /**
   No oversell under concurrency: in every interleaving each step that raises a node's used amount leaves it within
   allocatable, a call that returned inserted exactly the allocation it returned, and one that gave up inserted none.
   */
  lemma {:induction false} NoOversellUnderConcurrency(run: seq<System>, labels: seq<Label>, n: nat)
    requires |run| == |labels| + 1 && Inv(run[0]) && n <= |labels|
    requires forall i :: 0 <= i < |labels| ==> StepAt(run, labels, i)
    ensures Inv(run[n]) && CallsAccounted(run[n])
    ensures n > 0 ==> C.NeverOverdrawn(run[n - 1].store, run[n].store)
  {
    if n > 0 {
      hide Step, C.NeverOverdrawn, C.Conserved;
      NoOversellUnderConcurrency(run, labels, n - 1);
      assert StepAt(run, labels, n - 1);
      StepKeepsInv(run[n - 1], run[n], labels[n - 1]);
    }
    hide C.Conserved;
    forall k | k in run[n].calls ensures CallOk(run[n].store, run[n].calls[k]) {
    }
  }

  // ----- a call that nothing interrupts

  /** Five control points of one call with no access of anybody else in between. */
  ghost predicate Uninterrupted(states: seq<State>, pcs: seq<Pc>, c: Call, newId: Id) {
    && |states| == |pcs| == 5 && pcs[0] == Start
    && forall i :: 0 <= i < 4 ==> Goes(states[i], pcs[i], states[i + 1], pcs[i + 1], c, newId)
  }

  ghost predicate Goes(s: State, pc: Pc, t: State, next: Pc, c: Call, newId: Id) { Access(s, c.(pc := pc), t, next, newId) }

  /** The call has its reservation on a preferred node. */
  ghost predicate Served(s: State, t: State, q: Query, newId: Id) {
    exists node: Id, a: Allocation :: Preferred(s.nodes, q, node) && a.id == newId && a.size == q.size && t == s.Take(node, a)
  }

  lemma DirectlyServed(s: State, c: Call, t: State, pc: Pc, newId: Id)
    requires Goes(s, Start, t, pc, c, newId) && !c.q.k8s && SomeFits(s.nodes, c.q)
    ensures pc == Checking(newId) && Served(s, t, c.q, newId) && newId in t.allocs && t.allocs[newId].node in t.nodes
  {
    var node: Id :| Best(s.nodes, c.q, node) && t == s.Take(node, Fresh(c, newId, c.q.arch));
    BestIsPreferred(s.nodes, c.q, node);
    hide Preferred, SomeFits;
    assert Preferred(s.nodes, c.q, node) && Fresh(c, newId, c.q.arch).id == newId;
  }

  lemma ServedFromList(s: State, c: Call, out: seq<Node>, t: State, pc: Pc, newId: Id)
    requires Ranking(s.nodes, c.q, out) && out != [] && Goes(s, Trying(out), t, pc, c, newId)
    ensures pc == Checking(newId) && Served(s, t, c.q, newId) && newId in t.allocs && t.allocs[newId].node in t.nodes
  {
    RankingAgreesWithBest(s.nodes, c.q, out);
    BestIsPreferred(s.nodes, c.q, out[0].id);
    assert out[0] in out;
    var a := Fresh(c, newId, out[0].arch);
    assert s.ReserveOnNode(out[0].id, a) == (s.Take(out[0].id, a), Done);
    hide Preferred, Ranking, Best;
    assert a.id == newId && a.size == c.q.size;
  }

  lemma ChecksThenReturns(s: State, c: Call, newId: Id, t: State, pc: Pc)
    requires newId in s.allocs && s.allocs[newId].node in s.nodes
    ensures Goes(s, Checking(newId), t, pc, c, newId) || Goes(s, Returned(newId), t, pc, c, newId) ==> t == s && pc == Returned(newId)
  {}

  /**
   Alone, the split call does what Reserve does: it returns a reservation of its size on a preferred node exactly
   when some node is usable, and otherwise gives up and leaves the store alone.
   */
  lemma UninterruptedReserves(states: seq<State>, pcs: seq<Pc>, c: Call, newId: Id)
    requires Uninterrupted(states, pcs, c, newId)
    ensures if exists id :: id in states[0].nodes && Usable(states[0].nodes[id], c.q)
            then pcs[4] == Returned(newId) && Served(states[0], states[4], c.q, newId)
            else pcs[4] == GaveUp && states[4] == states[0]
  {
    var s := states[0];
    BestIsPreferred(s.nodes, c.q, NIL);
    assert forall i :: 0 <= i < 4 ==> Goes(states[i], pcs[i], states[i + 1], pcs[i + 1], c, newId);
    assert Goes(s, Start, states[1], pcs[1], c, newId);
    assert Goes(states[1], pcs[1], states[2], pcs[2], c, newId) && Goes(states[2], pcs[2], states[3], pcs[3], c, newId);
    assert Goes(states[3], pcs[3], states[4], pcs[4], c, newId);
    if SomeFits(s.nodes, c.q) && !c.q.k8s {
      DirectlyServed(s, c, states[1], pcs[1], newId);
      hide Goes, Served, Usable, SomeFits;
      ChecksThenReturns(states[1], c, newId, states[2], pcs[2]);
      ChecksThenReturns(states[2], c, newId, states[3], pcs[3]);
      ChecksThenReturns(states[3], c, newId, states[4], pcs[4]);
    } else {
      ListsFirst(s, c, states[1], pcs[1], newId);
      var out := ListsAll(s, c, states[2], pcs[2], newId);
      RankingAgreesWithBest(s.nodes, c.q, out);
      if out == [] {
        StaysGivenUp(s, c, states[3], pcs[3], newId);
        StaysGivenUp(s, c, states[4], pcs[4], newId);
      } else {
        hide Goes, Served, Usable, SomeFits, Ranking, Best;
        ServedFromList(s, c, out, states[3], pcs[3], newId);
        ChecksThenReturns(states[3], c, newId, states[4], pcs[4]);
      }
    }
  }

  lemma ListsFirst(s: State, c: Call, t: State, pc: Pc, newId: Id)
    requires Goes(s, Start, t, pc, c, newId) && (c.q.k8s || !SomeFits(s.nodes, c.q))
    ensures t == s && pc == Listing
  {}

  lemma ListsAll(s: State, c: Call, t: State, pc: Pc, newId: Id) returns (out: seq<Node>)
    requires Goes(s, Listing, t, pc, c, newId)
    ensures t == s && Ranking(s.nodes, c.q, out) && pc == if out == [] then GaveUp else Trying(out)
  {
    out :| Ranking(s.nodes, c.q, out) && pc == if out == [] then GaveUp else Trying(out);
  }

  lemma StaysGivenUp(s: State, c: Call, t: State, pc: Pc, newId: Id)
    ensures Goes(s, GaveUp, t, pc, c, newId) ==> t == s && pc == GaveUp
  {}

  // ----- capacity

  /** Heartbeats in between do not report less than what is already used. */
  ghost predicate HonestStep(x: System, l: Label) { l.ByOther? ==> C.HonestUpsert(x.store, l.step) }

  lemma ReservationKeepsCapacity(s: State, node: Id, a: Allocation, t: State)
    requires C.Conserved(s) && C.WithinCapacity(s) && a.id !in s.allocs && a.size.NonNegative() && s.ReserveOnNode(node, a) == (t, Done)
    ensures C.WithinCapacity(t)
  {
    hide C.Conserved, C.WithinCapacity;
    C.StepKeepsCapacity(s, C.Reserve(node, a));
  }

  lemma AccessKeepsCapacity(s: State, c: Call, t: State, pc: Pc, newId: Id)
    requires C.Conserved(s) && C.WithinCapacity(s) && c.q.size.NonNegative() && Access(s, c, t, pc, newId) && newId !in s.allocs
    ensures C.WithinCapacity(t)
  {
    hide C.Conserved, C.WithinCapacity;
    AccessIsReservation(s, c, t, pc, newId);
    hide Access;
    if t != s {
      var node: Id, a: Allocation :| a.id == newId && a.size == c.q.size && s.ReserveOnNode(node, a) == (t, Done);
      ReservationKeepsCapacity(s, node, a, t);
    }
  }

  lemma StepKeepsCapacity(x: System, y: System, l: Label)
    requires Inv(x) && C.WithinCapacity(x.store) && Step(x, y, l) && HonestStep(x, l)
    ensures C.WithinCapacity(y.store)
  {
    hide C.Conserved, C.WithinCapacity, Access;
    match l
    case ByCall(k, newId) =>
      assert CallOk(x.store, x.calls[k]);
      AccessKeepsCapacity(x.store, x.calls[k], y.store, y.calls[k].pc, newId);
    case ByOther(step) => C.StepKeepsCapacity(x.store, step);
    case ByBegin(k, c) =>
  }

  /** With honest heartbeats no node is ever oversold, however the calls and everything else interleave. */
  lemma {:induction false} NeverOversoldUnderConcurrency(run: seq<System>, labels: seq<Label>, n: nat)
    requires |run| == |labels| + 1 && Inv(run[0]) && n <= |labels|
    requires forall i :: 0 <= i < |labels| ==> StepAt(run, labels, i)
    requires C.WithinCapacity(run[0].store) && forall i :: 0 <= i < n ==> HonestStep(run[i], labels[i])
    ensures C.WithinCapacity(run[n].store)
  {
    if n > 0 {
      hide Step, Inv, C.WithinCapacity, HonestStep;
      NeverOversoldUnderConcurrency(run, labels, n - 1);
      NoOversellUnderConcurrency(run, labels, n - 1);
      assert StepAt(run, labels, n - 1) && HonestStep(run[n - 1], labels[n - 1]);
      StepKeepsCapacity(run[n - 1], run[n], labels[n - 1]);
    }
  }
}
