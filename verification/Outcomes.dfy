/** What provisioning and destroying leave behind, table by table. */
module Outcomes {
  import opened Amounts
  import opened Models
  import opened Placement
  import opened Store
  import opened App
  import opened AppInv
  import C = Conservation

  // ----- giving a reservation back

  /** What a node counts as used without the reservation of a. */
  function Without(s: State, n: Id, a: Id): Amount
    requires n in s.nodes
  {
    var used := s.nodes[n].used;
    if a in s.allocs && s.allocs[a].state in {Reserved, Active} && s.allocs[a].node == n
    then Amount(used.cpu - s.allocs[a].size.cpu, used.mem - s.allocs[a].size.mem, used.disk - s.allocs[a].size.disk)
    else used
  }

  /** From s to t the reservation of a is given back, and no other node or allocation is touched. */
  ghost predicate GivenUp(s: State, t: State, a: Id) {
    && (a in t.allocs ==> t.allocs[a].state == Released)
    && t.allocs.Keys == s.allocs.Keys && (forall b :: b in s.allocs && b != a ==> t.allocs[b] == s.allocs[b])
    && t.nodes.Keys == s.nodes.Keys && (forall n :: n in s.nodes ==> t.nodes[n] == s.nodes[n].(used := Without(s, n, a)))
  }

  lemma ReleaseGivesUp(s: State, a: Id)
    requires C.Conserved(s)
    ensures var t := s.Release(a).0;
            GivenUp(s, t, a) && t.workspaces == s.workspaces && t.audit == s.audit && t.projects == s.projects && t.byName == s.byName
  {
    hide C.Conserved;
    if s.Live(a) {
      C.LiveWithinUsed(s, a);
      RefundGivesUp(s, a);
    }
  }

  lemma RefundGivesUp(s: State, a: Id)
    requires s.Live(a) && s.allocs[a].node in s.nodes && s.allocs[a].size.Within(s.nodes[s.allocs[a].node].used)
    ensures GivenUp(s, s.Release(a).0, a)
  {
    var n := s.allocs[a].node;
    FlooredIsSame(s.nodes[n].used.Minus(s.allocs[a].size));
    hide Amount.Floored;
  }

  lemma FlooredIsSame(a: Amount)
    requires a.NonNegative()
    ensures a.Floored() == a
  {}

  lemma GivenUpReads(s: State, s': State, t: State, t': State, a: Id)
    requires GivenUp(s, t, a) && s'.nodes == s.nodes && s'.allocs == s.allocs && t'.nodes == t.nodes && t'.allocs == t.allocs
    ensures GivenUp(s', t', a)
  {
    assert forall n :: n in s.nodes ==> Without(s', n, a) == Without(s, n, a);
  }

  // ----- the end of a provision

  /** The launch succeeded and the reservation is still there. */
  ghost predicate Succeeded(x: World, y: World, id: Id, alloc: Id, action: string, now: int) {
    && id in x.db.workspaces && alloc in x.db.allocs
    && y.db.workspaces == x.db.workspaces[id := x.db.workspaces[id].(status := Running, updatedAt := now)]
    && y.db.allocs == x.db.allocs[alloc := x.db.allocs[alloc].(state := Active)]
    && y.db.nodes == x.db.nodes
    && y.guests == x.guests[id := true]
    && y.db.audit == x.db.audit + [Entry(id, None, action, None)]
  }

  /** The launch failed: the workspace says so and the reservation is given back. */
  ghost predicate LaunchFailed(x: World, y: World, id: Id, alloc: Id, now: int) {
    && id in x.db.workspaces
    && y.db.workspaces == x.db.workspaces[id := x.db.workspaces[id].(status := Failed, updatedAt := now)]
    && GivenUp(x.db, y.db, alloc)
    && y.guests == x.guests && y.db.audit == x.db.audit
  }

  /** Something else has happened to the workspace or to its reservation: it stays as it is, without either. */
  ghost predicate Aborted(x: World, y: World, id: Id, alloc: Id) {
    && y.db.workspaces == x.db.workspaces
    && (if alloc != NIL then GivenUp(x.db, y.db, alloc) else y.db.allocs == x.db.allocs && y.db.nodes == x.db.nodes)
    && y.guests == x.guests - {id} && y.db.audit == x.db.audit
  }

  ghost predicate ProvisionedAs(x: World, y: World, id: Id, alloc: Id, launched: bool, approved: bool, now: int) {
    && y.db.projects == x.db.projects && y.db.byName == x.db.byName
    && if id in x.db.workspaces && x.db.workspaces[id].status == Provisioning then
         if !launched then LaunchFailed(x, y, id, alloc, now)
         else if alloc in x.db.allocs && x.db.allocs[alloc].state in {Reserved, Active}
         then Succeeded(x, y, id, alloc, if approved then "workspace.approve" else "workspace.create", now)
         else Aborted(x, y, id, alloc)
       else Aborted(x, y, id, alloc)
  }

  lemma DroppedIsAborted(x: World, y: World, id: Id, alloc: Id)
    requires C.Conserved(x.db) && y.db == x.db && y.guests - {id} == x.guests - {id}
    ensures Aborted(x, DropAborted(y, id, alloc), id, alloc)
    ensures var z := DropAborted(y, id, alloc).db; z.projects == x.db.projects && z.byName == x.db.byName
  {
    ReleaseGivesUp(x.db, alloc);
    hide C.Conserved, State.Release, GivenUp;
  }

  lemma FailingGivesUp(x: World, id: Id, alloc: Id, now: int)
    requires C.Conserved(x.db) && id in x.db.workspaces
    ensures var w := x.db.workspaces[id].(status := Failed, updatedAt := now);
            var y := x.(db := x.db.PutWorkspace(id, w).Release(alloc).0);
            LaunchFailed(x, y, id, alloc, now) && y.db.projects == x.db.projects && y.db.byName == x.db.byName
  {
    var s := x.db.PutWorkspace(id, x.db.workspaces[id].(status := Failed, updatedAt := now));
    ConservedIgnores(x.db, s);
    ReleaseGivesUp(s, alloc);
    hide C.Conserved, State.Release;
    GivenUpReads(s, x.db, s.Release(alloc).0, s.Release(alloc).0, alloc);
    hide GivenUp;
  }

  /** A provision ends in exactly one of the three ways, by what the worker finds after the launch. */
  lemma ProvisionOutcome(x: World, id: Id, alloc: Id, launched: bool, approved: bool, now: int)
    requires C.Conserved(x.db)
    ensures ProvisionedAs(x, FinishProvision(x, id, alloc, launched, approved, now), id, alloc, launched, approved, now)
    ensures Do(x, OpFinishProvision(id, alloc, launched, approved), now) == FinishProvision(x, id, alloc, launched, approved, now)
  {
    var up := if launched then x.(guests := x.guests[id := true]) else x;
    DroppedIsAborted(x, up, id, alloc);
    if id in x.db.workspaces {
      FailingGivesUp(x, id, alloc, now);
    }
    if id in x.db.workspaces && x.db.workspaces[id].status == Provisioning {
      ActivationSucceeds(x, id, alloc, approved, now);
    }
    hide C.Conserved, State.Release, State.Activate, Aborted, LaunchFailed, Succeeded, DropAborted;
  }

  lemma ActivationSucceeds(x: World, id: Id, alloc: Id, approved: bool, now: int)
    requires id in x.db.workspaces && x.db.workspaces[id].status == Provisioning
    ensures var live := alloc in x.db.allocs && x.db.allocs[alloc].state in {Reserved, Active};
            && (x.db.Activate(alloc).1 == Done <==> live)
            && (live ==> var y := FinishProvision(x, id, alloc, true, approved, now);
                         Succeeded(x, y, id, alloc, if approved then "workspace.approve" else "workspace.create", now)
                         && y.db.projects == x.db.projects && y.db.byName == x.db.byName)
  {
    hide DropAborted;
  }

  // ----- destroying

  /** The workspace is destroyed, its instance is gone and its reservation is given back; nothing else is touched. */
  ghost predicate DestroyedAs(x: World, y: World, id: Id, now: int) {
    && id in x.db.workspaces
    && y.db.workspaces == x.db.workspaces[id := x.db.workspaces[id].(status := Destroyed, updatedAt := now)]
    && (var a := x.db.workspaces[id].alloc;
        if a != NIL then GivenUp(x.db, y.db, a) else y.db.allocs == x.db.allocs && y.db.nodes == x.db.nodes)
    && id !in y.guests && (forall j :: j != id ==> (j in y.guests <==> j in x.guests) && (j in x.guests ==> y.guests[j] == x.guests[j]))
    && y.db.audit == x.db.audit + [Entry(id, None, "workspace.destroy", None)]
    && y.db.projects == x.db.projects && y.db.byName == x.db.byName
  }

  /** The store once the workspace is marked. */
  function Marked(s: State, id: Id, now: int): State
    requires id in s.workspaces
  {
    s.PutWorkspace(id, s.workspaces[id].(status := Destroying, updatedAt := now))
  }

  /** Which parts of the store a destroy run takes from where. */
  lemma DestroyWrites(x: World, id: Id, now: int)
    requires id in x.db.workspaces
    ensures var y, w := ExecuteDestroy(x, id, now), x.db.workspaces[id];
            var released := if w.alloc != NIL then Marked(x.db, id, now).Release(w.alloc).0 else x.db;
            && y.db.workspaces == x.db.workspaces[id := w.(status := Destroyed, updatedAt := now)]
            && y.db.nodes == released.nodes && y.db.allocs == released.allocs && y.guests == x.guests - {id}
            && y.db.audit == x.db.audit + [Entry(id, None, "workspace.destroy", None)]
            && y.db.projects == x.db.projects && y.db.byName == x.db.byName
  {
    ReleaseEffect(Marked(x.db, id, now), x.db.workspaces[id].alloc);
    hide State.Release;
  }

  lemma DestroyOutcome(x: World, id: Id, now: int)
    requires C.Conserved(x.db) && id in x.db.workspaces
    ensures DestroyedAs(x, ExecuteDestroy(x, id, now), id, now)
  {
    DestroyWrites(x, id, now);
    hide C.Conserved, ExecuteDestroy, State.Release, GivenUp;
    var a, s := x.db.workspaces[id].alloc, Marked(x.db, id, now);
    ConservedIgnores(x.db, s);
    ReleaseGivesUp(s, a);
    var y := ExecuteDestroy(x, id, now);
    if a != NIL {
      GivenUpReads(s, x.db, s.Release(a).0, y.db, a);
    }
    InstanceGoes(x.guests, id);
  }

  lemma InstanceGoes(guests: map<Id, bool>, id: Id)
    ensures var left := guests - {id};
            id !in left && forall j :: j != id ==> (j in left <==> j in guests) && (j in guests ==> left[j] == guests[j])
  {}

  /** A platform admin's own request destroys whatever is not gone and not under review; otherwise nothing happens. */
  lemma AdminRequestDestroys(x: World, id: Id, actor: Actor, now: int)
    requires C.Conserved(x.db) && actor.platformAdmin
    ensures var (y, r) := RequestDestroy(x, id, actor, now);
            && Do(x, OpRequestDestroy(id, actor), now) == y
            && (r == Done <==> id in x.db.workspaces
                               && x.db.workspaces[id].status !in {DestroyRequested, DestroyPendingPlatform, Destroying, Destroyed})
            && (r == Done ==> DestroyedAs(x, y, id, now)) && (r != Done ==> y == x)
  {
    hide C.Conserved, ExecuteDestroy, DestroyedAs;
    if id in x.db.workspaces {
      DestroyOutcome(x, id, now);
    }
  }

  /** The platform's approval destroys exactly what is pending there. */
  lemma PlatformApprovalDestroys(x: World, id: Id, actor: Actor, now: int)
    requires C.Conserved(x.db)
    ensures var (y, r) := ApproveDestroyPlatform(x, id, actor, now);
            && Do(x, OpApproveDestroyPlatform(id, actor), now) == y
            && (r == Done <==> actor.platformAdmin && id in x.db.workspaces && x.db.workspaces[id].status == DestroyPendingPlatform)
            && (r == Done ==> DestroyedAs(x, y, id, now)) && (r != Done ==> y == x)
  {
    hide C.Conserved, ExecuteDestroy, DestroyedAs;
    if id in x.db.workspaces {
      DestroyOutcome(x, id, now);
    }
  }

  /** A platform admin may force the destruction of any workspace; everybody else only asks for it. */
  lemma ForceDestroys(x: World, id: Id, actor: Actor, now: int)
    requires C.Conserved(x.db)
    ensures Do(x, OpDestroy(id, actor), now) == DestroyWorkspace(x, id, actor, now).0
    ensures var (y, r) := DestroyWorkspace(x, id, actor, now);
            if actor.platformAdmin then
              (r == Done <==> id in x.db.workspaces) && (r == Done ==> DestroyedAs(x, y, id, now)) && (r != Done ==> y == x)
            else (y, r) == RequestDestroy(x, id, actor, now)
  {
    hide C.Conserved, ExecuteDestroy, DestroyedAs, RequestDestroy;
    if id in x.db.workspaces {
      DestroyOutcome(x, id, now);
    }
  }
}
