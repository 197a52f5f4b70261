/**
 The split worker and destroy run against the calls taken as one step: when nothing comes in between, both leave the
 same store and the same instances.
 */
module RaceSerial {
  import opened Amounts
  import opened Models
  import opened Store
  import opened App
  import opened AppInv
  import opened Race
  import Outcomes
  import C = Conservation

  /** n steps of one worker or one destroy run. */
  ghost function Alone(x: System, l: Label, n: nat): System
    decreases n
  {
    if n == 0 then x else Alone(Next(x, l), l, n - 1)
  }

  lemma AloneOnce(x: System, l: Label, n: nat)
    requires 0 < n
    ensures Alone(x, l, n) == Alone(Next(x, l), l, n - 1)
  {}

  // ----- the worker

  /** From the launch on, at most five steps. */
  ghost function WorkerEnd(x: System, id: Id, how: LaunchEnd, now: int): System { Alone(x, ByWorker(id, how, now), 5) }

  lemma FinishedStays(x: System, id: Id, how: LaunchEnd, now: int, n: nat)
    requires id in x.workers && x.workers[id].pc == Finished
    ensures Alone(x, ByWorker(id, how, now), n) == x
  {
    if n > 0 {
      FinishedStays(x, id, how, now, n - 1);
    }
  }

  /** The worker leaves the instance and the reservation. */
  lemma DropsAlone(x: System, id: Id, how: LaunchEnd, now: int, n: nat)
    requires id in x.workers && x.workers[id].pc == DropInstance && x.workers[id].alloc != NIL && 2 <= n
    ensures var y := Alone(x, ByWorker(id, how, now), n);
            y.AsWorld() == DropAborted(x.AsWorld(), id, x.workers[id].alloc) && id in y.workers && y.workers[id].pc == Finished
  {
    hide State.Release, State.Activate, State.UpdateWorkspaceIfStatus, Alone;
    var l := ByWorker(id, how, now);
    AloneOnce(x, l, n);
    AloneOnce(Next(x, l), l, n - 1);
    FinishedStays(Next(Next(x, l), l), id, how, now, n - 2);
  }

  lemma FailsAlone(x: System, id: Id, how: LaunchEnd, now: int, n: nat)
    requires id in x.workers && id in x.db.workspaces && x.db.workspaces[id].status == Provisioning && 2 <= n
    requires x.workers[id].pc == CommitFailed(x.db.workspaces[id].(status := Failed, updatedAt := now))
    ensures var y := Alone(x, ByWorker(id, how, now), n);
            y.AsWorld() == FinishProvision(x.AsWorld(), id, x.workers[id].alloc, false, false, now)
            && id in y.workers && y.workers[id].pc == Finished
  {
    hide State.Release, State.Activate, Alone, DropAborted;
    var l := ByWorker(id, how, now);
    AloneOnce(x, l, n);
    AloneOnce(Next(x, l), l, n - 1);
    FinishedStays(Next(Next(x, l), l), id, how, now, n - 2);
  }

  /** Activated: what is left is to commit and to log. */
  lemma CommitsAlone(x: System, id: Id, latest: Workspace, how: LaunchEnd, now: int)
    requires id in x.workers && id in x.db.workspaces && x.db.workspaces[id].status == Provisioning
    requires x.workers[id].pc == CommitRunning(latest)
    ensures var y := Alone(x, ByWorker(id, how, now), 2);
            && y.AsWorld() == x.AsWorld().(db := x.db.PutWorkspace(id, latest).AddAudit(Entry(id, None, "workspace.create", None)))
            && id in y.workers && y.workers[id].pc == Finished
  {
    var l := ByWorker(id, how, now);
    AloneOnce(x, l, 2);
    AloneOnce(Next(x, l), l, 1);
    AloneNot(Next(Next(x, l), l), l);
  }

  lemma ActivatesAlone(x: System, id: Id, how: LaunchEnd, now: int)
    requires id in x.workers && id in x.db.workspaces && x.db.workspaces[id].status == Provisioning && x.workers[id].alloc != NIL
    requires x.workers[id].pc == Activate(x.db.workspaces[id]) && id in x.guests && x.guests[id]
    ensures var y := Alone(x, ByWorker(id, how, now), 3);
            y.AsWorld() == FinishProvision(x.AsWorld(), id, x.workers[id].alloc, true, false, now)
            && id in y.workers && y.workers[id].pc == Finished
  {
    hide State.Activate, DropAborted;
    var l := ByWorker(id, how, now);
    AloneOnce(x, l, 3);
    var y := Next(x, l);
    var (db, r) := x.db.Activate(x.workers[id].alloc);
    ActivateEffect(x.db, x.workers[id].alloc);
    RefusedActivates(x.db, x.workers[id].alloc);
    assert x.guests[id := true] == x.guests;
    if r == Done {
      CommitsAlone(y, id, x.db.workspaces[id].(status := Running, updatedAt := now), how, now);
    } else {
      DropsAlone(y, id, how, now, 2);
    }
  }

  lemma RefusedActivates(s: State, a: Id)
    ensures s.Activate(a).1 != Done ==> s.Activate(a).0 == s
  {}

  /**
   From its launch to its end, with nothing in between, the worker does what FinishProvision does: the same
   workspaces, allocations, nodes, log and instances.
   */
  lemma WorkerAloneFinishes(x: System, id: Id, how: LaunchEnd, now: int)
    requires id in x.workers && x.workers[id].pc == Launch && x.workers[id].alloc != NIL && how != NoCredentials
    ensures var y := WorkerEnd(x, id, how, now);
            && y.AsWorld() == FinishProvision(x.AsWorld(), id, x.workers[id].alloc, how == Launched, false, now)
            && id in y.workers && y.workers[id].pc == Finished
  {
    hide Next, Alone, DropAborted, State.Release, State.Activate;
    var l := ByWorker(id, how, now);
    AloneOnce(x, l, 5);
    AloneOnce(Next(x, l), l, 4);
    LaunchesAndLooks(x, id, how, now);
    var z := Next(Next(x, l), l);
    assert x.guests[id := true][id := true] == x.guests[id := true];
    if id !in x.db.workspaces || x.db.workspaces[id].status != Provisioning {
      DropsAlone(z, id, how, now, 3);
    } else if how == LaunchFailed {
      FailsAlone(z, id, how, now, 3);
    } else {
      ActivatesAlone(z, id, how, now);
    }
  }

  /** What the worker goes on with after the launch. */
  lemma LaunchesAndLooks(x: System, id: Id, how: LaunchEnd, now: int)
    requires id in x.workers && x.workers[id].pc == Launch && how != NoCredentials
    ensures var z := Next(Next(x, ByWorker(id, how, now)), ByWorker(id, how, now));
            && z.db == x.db && z.guests == (if how == Launched then x.guests[id := true] else x.guests)
            && id in z.workers && z.workers[id].alloc == x.workers[id].alloc
            && z.workers[id].pc == if id !in x.db.workspaces || x.db.workspaces[id].status != Provisioning then DropInstance
                                   else if how == Launched then Activate(x.db.workspaces[id])
                                   else CommitFailed(x.db.workspaces[id].(status := Failed, updatedAt := now))
  {}

  // ----- the destroy run

  /**
   A destroy run whose copy is the workspace as it is, with nothing in between, does what ExecuteDestroy does: the
   same workspaces, allocations, nodes, log and instances.
   */
  lemma DestroyerAloneDestroys(x: System, k: nat, now: int)
    requires k in x.destroyers && x.destroyers[k].stage == MarkDestroying
    requires x.destroyers[k].id in x.db.workspaces && x.destroyers[k].w == x.db.workspaces[x.destroyers[k].id]
    ensures var y := Alone(x, ByDestroyer(k, now), 5);
            y.AsWorld() == ExecuteDestroy(x.AsWorld(), x.destroyers[k].id, now) && k in y.destroyers && y.destroyers[k].stage == Over
  {
    hide State.Release, Alone, Next;
    var l := ByDestroyer(k, now);
    AloneOnce(x, l, 5);
    AloneOnce(Next(x, l), l, 4);
    MarksAndDrops(x, k, now);
    var z := Next(Next(x, l), l);
    AloneOnce(z, l, 3);
    AloneOnce(Next(z, l), l, 2);
    AloneOnce(Next(Next(z, l), l), l, 1);
    AloneNot(Next(Next(Next(z, l), l), l), l);
    ReleasesAndEnds(z, k, now);
  }

  lemma ReleasesAndEnds(x: System, k: nat, now: int)
    requires k in x.destroyers && x.destroyers[k].stage == ReleaseAlloc && x.destroyers[k].id in x.db.workspaces
    ensures var l, id, w := ByDestroyer(k, now), x.destroyers[k].id, x.destroyers[k].w;
            var y := Next(Next(Next(x, l), l), l);
            && y.db == (if w.alloc != NIL then x.db.Release(w.alloc).0 else x.db).PutWorkspace(id, w.(status := Destroyed, updatedAt := now))
                         .AddAudit(Entry(id, None, "workspace.destroy", None))
            && y.guests == x.guests && k in y.destroyers && y.destroyers[k].stage == Over
  {
    ReleaseEffect(x.db, x.destroyers[k].w.alloc);
    hide State.Release;
  }

  lemma AloneNot(x: System, l: Label)
    ensures Alone(x, l, 0) == x
  {}

  lemma MarksAndDrops(x: System, k: nat, now: int)
    requires k in x.destroyers && x.destroyers[k].stage == MarkDestroying
    requires x.destroyers[k].id in x.db.workspaces && x.destroyers[k].w == x.db.workspaces[x.destroyers[k].id]
    ensures var y, id := Next(Next(x, ByDestroyer(k, now)), ByDestroyer(k, now)), x.destroyers[k].id;
            && y.db == Outcomes.Marked(x.db, id, now) && y.guests == x.guests - {id}
            && k in y.destroyers && y.destroyers[k] == x.destroyers[k].(stage := ReleaseAlloc)
  {}
}
