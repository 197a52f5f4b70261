/** What resizing calls accept, and what they leave behind. */
module Resizes {
  import opened Amounts
  import opened Models
  import opened Store
  import opened App
  import opened AppInv
  import opened AppSteps
  import opened Calls
  import Moves
  import C = Conservation

  function Difference(to: Amount, from: Amount): Amount { Amount(to.cpu - from.cpu, to.mem - from.mem, to.disk - from.disk) }

  predicate Grows(from: Amount, to: Amount) { from.cpu < to.cpu || from.mem < to.mem || from.disk < to.disk }

  /** A resize is one way: up or down in every dimension, and not nothing. */
  lemma ClassifyExactly(cur: Amount, target: Amount)
    ensures var (kind, r) := ClassifyResize(cur, target);
            && (r == Done <==> cur != target && !(Grows(cur, target) && Grows(target, cur)))
            && (r == Done ==> kind == if Grows(cur, target) then Upgrade else Downgrade)
  {}

  /** The node has the difference free wherever it is positive. */
  predicate HasRoom(n: Node, d: Amount) {
    && (d.cpu > 0 ==> n.used.cpu + d.cpu <= n.allocatable.cpu)
    && (d.mem > 0 ==> n.used.mem + d.mem <= n.allocatable.mem)
    && (d.disk > 0 ==> n.used.disk + d.disk <= n.allocatable.disk)
  }

  /** The allocation has another size, and its node counts the difference. */
  ghost predicate Regrown(s: State, t: State, a: Id, size: Amount) {
    && a in s.allocs && s.allocs[a].node in s.nodes
    && t.allocs == s.allocs[a := s.allocs[a].(size := size)]
    && var n, before := s.nodes[s.allocs[a].node], s.allocs[a].size;
       t.nodes == s.nodes[s.allocs[a].node := n.(used := Amount(n.used.cpu + size.cpu - before.cpu, n.used.mem + size.mem - before.mem,
                                                                n.used.disk + size.disk - before.disk))]
  }

  lemma ExpandExactly(s: State, a: Id, size: Amount)
    requires C.Conserved(s) && Holds(s, a) && size.NonNegative()
    ensures s.allocs[a].node in s.nodes
    ensures var d := Difference(size, s.allocs[a].size);
            var (t, r) := s.Expand(a, d);
            && (r == Done <==> HasRoom(s.nodes[s.allocs[a].node], d)) && r != Fail(ErrRuntime)
            && (r == Done ==> Regrown(s, t, a, size)
                              && t.workspaces == s.workspaces && t.audit == s.audit && t.projects == s.projects && t.byName == s.byName)
  {
    hide C.Conserved, State.Expand, Regrown, HasRoom, Amount.Plus;
    var d := Difference(size, s.allocs[a].size);
    PlusDifference(size, s.allocs[a].size);
    C.LiveWithinUsed(s, a);
    C.ExpandConserves(s, a, d);
    Outcome(s, a, d);
    if s.Expand(a, d).1 == Done {
      Regrows(s, a, size);
    }
  }

  lemma PlusDifference(to: Amount, from: Amount)
    ensures from.Plus(Difference(to, from)) == to
  {}

  /** Where no clamp applies. */
  lemma Regrows(s: State, a: Id, size: Amount)
    requires Holds(s, a) && s.allocs[a].node in s.nodes && size.NonNegative()
    requires var d := Difference(size, s.allocs[a].size);
             s.Expand(a, d).1 == Done && C.ClampsIdle(s, C.Expand(a, d))
    ensures var t := s.Expand(a, Difference(size, s.allocs[a].size)).0;
            Regrown(s, t, a, size) && t.workspaces == s.workspaces && t.audit == s.audit && t.projects == s.projects && t.byName == s.byName
  {
    var d := Difference(size, s.allocs[a].size);
    PlusDifference(size, s.allocs[a].size);
    Unclamped(size);
    Unclamped(s.nodes[s.allocs[a].node].used.Plus(d));
    hide Amount.Floored;
  }

  lemma Outcome(s: State, a: Id, d: Amount)
    requires s.Live(a) && s.allocs[a].node in s.nodes
    ensures s.Expand(a, d).1 == Done <==> HasRoom(s.nodes[s.allocs[a].node], d)
    ensures s.Expand(a, d).1 != Fail(ErrRuntime)
  {}

  lemma Unclamped(a: Amount)
    requires a.NonNegative()
    ensures a.Floored() == a
  {}

  // ----- approving

  ghost predicate MayApply(s: State, id: Id, actor: Actor) {
    && id in s.workspaces && s.workspaces[id].resizePending
    && var w := s.workspaces[id];
       && MayUse(s, actor, w.project, 30) && Holds(s, w.alloc) && s.allocs[w.alloc].node in s.nodes
       && (Grows(w.size, w.pending) ==> FitsBudget(s, w.project, Difference(w.pending, w.size)))
       && HasRoom(s.nodes[s.allocs[w.alloc].node], Difference(w.pending, w.size))
  }

  /** The workspace has its new size, and so has its allocation. */
  ghost predicate AppliedAs(s: State, t: State, id: Id, now: int) {
    && id in s.workspaces
    && var w := s.workspaces[id];
       && t.workspaces == s.workspaces[id := w.(size := w.pending, pending := ZERO, resizePending := false, resizeKind := NoKind, updatedAt := now)]
       && Regrown(s, t, w.alloc, w.pending)
  }

  lemma PendingMeans(s: State, id: Id)
    requires Inv(s) && id in s.workspaces && s.workspaces[id].resizePending
    ensures var w := s.workspaces[id];
            && w.Spec().size == w.size && w.pending.NonNegative() && EffectiveKind(w) == w.resizeKind
            && (w.resizeKind == Upgrade <==> Grows(w.size, w.pending)) && (w.resizeKind == Downgrade <==> Grows(w.pending, w.size))
            && w.pending.Minus(w.size) == Difference(w.pending, w.size)
            && (Holds(s, w.alloc) ==> s.allocs[w.alloc].size == w.size && w.alloc != NIL)
  {
    hide C.Conserved, OneOwner;
    assert WsOk(s, id, s.workspaces[id]);
  }

  lemma ExpandNeedsHold(s: State, a: Id, d: Amount)
    ensures s.Expand(a, d).1 == Done ==> Holds(s, a)
    ensures s.Expand(a, d).1 != Fail(ErrRuntime)
  {}

  /**
   Approving a resize succeeds exactly when there is one pending, an admin of the project approves it, the budget and
   the node have room for what grows, and the runtime has the instance and goes along. Workspace and allocation then
   have the size that was asked for; an upgrade that fails changes nothing.
   */
  lemma ApproveResizeExactly(x: World, id: Id, actor: Actor, fault: bool, now: int)
    requires Inv(x.db)
    ensures var (y, r) := ApproveResize(x, id, actor, fault, now);
            && Do(x, OpApproveResize(id, actor, fault), now) == y
            && (r == Done <==> MayApply(x.db, id, actor) && id in x.guests && !fault)
            && (r == Fail(ErrRuntime) <==> MayApply(x.db, id, actor) && (id !in x.guests || fault))
            && (r == Done ==> AppliedAs(x.db, y.db, id, now) && y.guests == x.guests)
            && (r !in {Done, Fail(ErrRuntime)} ==> y == x)
            && (r == Fail(ErrRuntime) && Grows(x.db.workspaces[id].size, x.db.workspaces[id].pending) ==> y == x)
  {
    hide Inv, C.Conserved, State.Expand, Ready, CheckBudget, EffectiveKind, FitsBudget, Workspace.Spec, Grows, HasRoom, Holds, Regrown, MayUse;
    if id in x.db.workspaces && x.db.workspaces[id].resizePending {
      var s, w := x.db, x.db.workspaces[id];
      var d := w.pending.Minus(w.size);
      InvConserves(s);
      PendingMeans(s, id);
      ReadyExactly(s, actor, w.project, 30);
      BudgetAcceptsExactly(s, w.project, d);
      ExpandNeedsHold(s, w.alloc, d);
      if Holds(s, w.alloc) {
        ExpandExactly(s, w.alloc, w.pending);
      }
      WithinMeans(w.size, w.pending);
      var (y, r) := ApproveResize(x, id, actor, fault, now);
      if r == Done {
        RegrownReads(s, s.Expand(w.alloc, d).0, y.db, w.alloc, w.pending);
      }
      if r == Fail(ErrRuntime) && Grows(w.size, w.pending) {
        assert w.resizeKind != Downgrade;
        FailedResizeRestoresExactly(x, id, actor, fault, now);
      }
    } else {
      NotPending(x, id, actor, fault, now);
    }
  }

  lemma RegrownReads(s: State, t: State, t': State, a: Id, size: Amount)
    requires Regrown(s, t, a, size) && t'.nodes == t.nodes && t'.allocs == t.allocs
    ensures Regrown(s, t', a, size)
  {}

  lemma WithinMeans(size: Amount, pending: Amount)
    ensures pending.Minus(size).Within(ZERO) <==> !Grows(size, pending)
  {}

  lemma NotPending(x: World, id: Id, actor: Actor, fault: bool, now: int)
    requires !(id in x.db.workspaces && x.db.workspaces[id].resizePending)
    ensures var (y, r) := ApproveResize(x, id, actor, fault, now); y == x && r !in {Done, Fail(ErrRuntime)}
  {
    hide Workspace.Spec, CheckBudget;
  }

  // ----- asking and rejecting

  ghost predicate MayAsk(s: State, id: Id, actor: Actor, size: Amount) {
    && id in s.workspaces
    && var w := s.workspaces[id];
       && MayUse(s, actor, w.project, 20) && OpenTo(w, actor)
       && w.status in {Running, Stopped, FabricDegraded} && !w.resizePending
       && Calls.Allowed(size) && size != w.size && !(Grows(w.size, size) && Grows(size, w.size))
       && (Grows(w.size, size) ==> FitsBudget(s, w.project, Difference(size, w.size)))
  }

  /** The wish is recorded and logged; nothing else changes. */
  function Recorded(x: World, id: Id, size: Amount, now: int): World
    requires id in x.db.workspaces
  {
    var w := x.db.workspaces[id];
    x.(db := x.db.(workspaces := x.db.workspaces[id := w.(pending := size, resizePending := true,
                                                          resizeKind := if Grows(w.size, size) then Upgrade else Downgrade, updatedAt := now)],
                   audit := x.db.audit + [Entry(id, None, "workspace.resize.request", None)]))
  }

  /** Asking for a resize records it, if it may be asked for; an admin's upgrade goes on to its approval at once. */
  lemma RequestResizeExactly(x: World, id: Id, actor: Actor, size: Amount, fault: bool, now: int)
    requires Inv(x.db)
    ensures Do(x, OpRequestResize(id, actor, size, fault), now) == RequestResize(x, id, actor, size, fault, now).0
    ensures var (y, r) := RequestResize(x, id, actor, size, fault, now);
            if !MayAsk(x.db, id, actor, size) then r != Done && y == x
            else if Grows(x.db.workspaces[id].size, size) && MayUse(x.db, actor, x.db.workspaces[id].project, 30)
            then (y, r) == ApproveResize(Recorded(x, id, size, now), id, actor, fault, now)
            else r == Done && y == Recorded(x, id, size, now)
  {
    IsTheCall(x, id, actor, size, fault, now);
    hide Do, Inv, Ready, CheckBudget, ApproveResize, ResolveSpec, ClassifyResize, FitsBudget, MayUse, OpenTo, MayTouch, Calls.Allowed, Grows;
    if id in x.db.workspaces {
      var s, w := x.db, x.db.workspaces[id];
      SpecIsSize(s, id);
      ReadyExactly(s, actor, w.project, 20);
      PrivateExactly(w, actor);
      ResolvesExactly("custom", size);
      AllowedIsPositive(size);
      ClassifyExactly(w.size, size);
      BudgetAcceptsExactly(s, w.project, size.Minus(w.size));
      ReadyExactly(s, actor, w.project, 30);
      assert size.Minus(w.size) == Difference(size, w.size);
    }
  }

  lemma IsTheCall(x: World, id: Id, actor: Actor, size: Amount, fault: bool, now: int)
    ensures Do(x, OpRequestResize(id, actor, size, fault), now) == RequestResize(x, id, actor, size, fault, now).0
  {
    hide RequestResize;
  }

  lemma AllowedIsPositive(size: Amount)
    ensures Calls.Allowed(size) ==> size.cpu > 0 && size.mem > 0 && size.disk > 0
  {}

  /** Rejecting a pending resize forgets it. */
  lemma RejectResizeExactly(x: World, id: Id, actor: Actor, now: int)
    ensures var (y, r) := RejectResize(x, id, actor, now);
            && Do(x, OpRejectResize(id, actor), now) == y
            && (r == Done <==> id in x.db.workspaces && AtLeast(actor, 20) && x.db.workspaces[id].resizePending)
            && (r == Done ==> y == x.(db := x.db.(workspaces := x.db.workspaces[id := x.db.workspaces[id].(
                                        pending := Amount(0, 0, 0), resizePending := false, updatedAt := now)],
                                      audit := x.db.audit + [Entry(id, None, "workspace.resize.reject", None)])))
            && (r != Done ==> y == x)
  {
    MemberExactly(actor, 20);
  }
}
