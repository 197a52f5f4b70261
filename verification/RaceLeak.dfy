/** When an approval leaks its reservation: exactly when a destroy call has read the workspace and not yet written it. */
module RaceLeak {
  import opened Amounts
  import opened Models
  import opened Placement
  import opened Store
  import opened App
  import opened AppInv
  import opened AppSteps
  import opened Moves
  import opened Race
  import opened RaceWorker
  import opened RaceDestroyers
  import opened RaceCalls
  import opened RaceRuns
  import C = Conservation
  import Reconcile

  ghost function Play(x: System, labels: seq<Label>): System
    decreases labels
  {
    if labels == [] then x else Play(Next(x, labels[0]), labels[1..])
  }

  ghost predicate PermittedPlay(x: System, labels: seq<Label>)
    decreases labels
  {
    labels == [] || (Permitted(x, labels[0]) && PermittedPlay(Next(x, labels[0]), labels[1..]))
  }

  lemma {:induction false} PlayKeepsRace(x: System, labels: seq<Label>)
    requires RaceInv(x) && PermittedPlay(x, labels)
    ensures RaceInv(Play(x, labels))
    decreases labels
  {
    hide RaceInv, Next, Permitted;
    if labels != [] {
      StepKeepsRace(x, labels[0]);
      PlayKeepsRace(Next(x, labels[0]), labels[1..]);
    }
  }

  lemma PlayOne(x: System, l: Label, rest: seq<Label>)
    ensures Play(x, [l] + rest) == Play(Next(x, l), rest)
    ensures PermittedPlay(x, [l] + rest) <==> Permitted(x, l) && PermittedPlay(Next(x, l), rest)
  {
    hide Next, Permitted;
    assert ([l] + rest)[1..] == rest;
  }

  // ----- a destroyer that knows of no allocation

  ghost predicate Blind(x: System, k: nat, id: Id, stage: Stage, worker: Worker) {
    && k in x.destroyers && x.destroyers[k].id == id && x.destroyers[k].stage == stage && x.destroyers[k].w.alloc == NIL
    && id in x.db.workspaces && id in x.workers && x.workers[id] == worker && worker.alloc != NIL && x.db.Live(worker.alloc)
    && (forall j :: j in x.db.workspaces && j != id ==> x.db.workspaces[j].alloc != worker.alloc)
    && (stage != MarkDestroying ==> x.db.workspaces[id].status.Gone() && x.db.workspaces[id].alloc == NIL)
    && (stage == LogDestroy || stage == Over ==> x.db.workspaces[id].status == Destroyed)
  }

  lemma BlindDestroyer(x: System, k: nat, id: Id, stage: Stage, worker: Worker, now: int)
    requires Blind(x, k, id, stage, worker)
    ensures Blind(Next(x, ByDestroyer(k, now)), k, id, Following(stage), worker)
  {
    match stage
    case MarkDestroying =>
    case DestroyInstance =>
    case ReleaseAlloc =>
    case MarkDestroyed =>
    case LogDestroy =>
    case Over =>
  }

  /** The rest of the destroy run, and then one look of the worker. */
  function Finish(k: nat, id: Id, how: LaunchEnd, now: int, left: nat): (labels: seq<Label>) {
    if left == 0 then [ByWorker(id, how, now)] else [ByDestroyer(k, now)] + Finish(k, id, how, now, left - 1)
  }

  lemma {:induction false} BlindLeaks(x: System, k: nat, id: Id, stage: Stage, worker: Worker, how: LaunchEnd, now: int)
    requires Blind(x, k, id, stage, worker) && worker.pc == Load
    ensures var labels := Finish(k, id, how, now, StagesLeft(stage));
            PermittedPlay(x, labels) && LeaksFor(Play(x, labels), k, id, worker.alloc)
    decreases StagesLeft(stage)
  {
    hide Blind, Next, LeaksFor;
    if stage == Over {
      EndsLeaked(x, k, id, worker, how, now);
      PlayOne(x, ByWorker(id, how, now), []);
      assert [ByWorker(id, how, now)] + [] == [ByWorker(id, how, now)];
    } else {
      var step := ByDestroyer(k, now);
      BlindDestroyer(x, k, id, stage, worker, now);
      BlindLeaks(Next(x, step), k, id, Following(stage), worker, how, now);
      PlayOne(x, step, Finish(k, id, how, now, StagesLeft(Following(stage))));
    }
  }

  ghost predicate LeaksFor(y: System, k: nat, id: Id, alloc: Id) {
    && Leaked(y, id) && y.workers[id].alloc == alloc && k in y.destroyers && y.destroyers[k].stage == Over
    && id in y.db.workspaces && y.db.workspaces[id].status == Destroyed && y.db.workspaces[id].alloc == NIL
  }

  lemma EndsLeaked(x: System, k: nat, id: Id, worker: Worker, how: LaunchEnd, now: int)
    requires Blind(x, k, id, Over, worker) && worker.pc == Load
    ensures LeaksFor(Next(x, ByWorker(id, how, now)), k, id, worker.alloc)
  {}

  // ----- an approval

  lemma RequestedAlloc(x: System, op: Op, now: int)
    requires Linked(x) && op.OpApprove? && ApproveWorkspace(x.db, op.id, op.actor, op.draw, now).1 == Done
    ensures op.id in x.db.workspaces && x.db.workspaces[op.id].status == Requested && x.db.workspaces[op.id].alloc == NIL
  {
    hide CheckBudget, Ready, Reserve, Workspace.Spec, OneOwner, WorkerOk, DestroyerOk;
  }

  lemma ApprovalSpawns(x: System, op: Op, now: int)
    requires op.OpApprove? && FreshDraw(x.db, op.draw) && ApproveWorkspace(x.db, op.id, op.actor, op.draw, now).1 == Done
    ensures var y := Spawn(x, op, now);
            && op.id in y.workers && y.workers[op.id] == Worker(op.draw.alloc, Load) && op.id in y.db.workspaces
            && op.draw.alloc != NIL && y.db.Live(op.draw.alloc) && y.destroyers == x.destroyers
            && (forall j :: j in y.db.workspaces && j != op.id ==> y.db.workspaces[j].alloc != op.draw.alloc)
  {
    hide CheckBudget, Ready, State.Take, Workspace.Spec;
    var was := x.db.workspaces[op.id];
    TakenStates(x.db, op.draw.place, Allocation(op.draw.alloc, was.project, op.draw.place, was.Spec().size, NormalArch(was.arch), Reserved));
  }

  lemma StartsBlind(x: System, k: nat, id: Id, worker: Worker)
    requires k in x.destroyers && x.destroyers[k].id == id && x.destroyers[k].stage == MarkDestroying && x.destroyers[k].w.alloc == NIL
    requires id in x.db.workspaces && worker.alloc != NIL && x.db.Live(worker.alloc) && id in x.workers && x.workers[id] == worker
    requires forall j :: j in x.db.workspaces && j != id ==> x.db.workspaces[j].alloc != worker.alloc
    ensures Blind(x, k, id, MarkDestroying, worker)
  {}

  lemma ApprovalStartsBlind(x: System, k: nat, op: Op, now: int)
    requires RaceInv(x) && k in x.destroyers && x.destroyers[k].stage == MarkDestroying
    requires op.OpApprove? && op.id == x.destroyers[k].id && FreshDraw(x.db, op.draw)
    requires ApproveWorkspace(x.db, op.id, op.actor, op.draw, now).1 == Done
    ensures Blind(Next(x, BySpawn(op, now)), k, op.id, MarkDestroying, Worker(op.draw.alloc, Load))
  {
    DestroyerFacts(x, k);
    RequestedAlloc(x, op, now);
    hide RaceInv, ApproveWorkspace, Blind, FreshDraw;
    ApprovalSpawns(x, op, now);
    hide Spawn;
    StartsBlind(Next(x, BySpawn(op, now)), k, op.id, Worker(op.draw.alloc, Load));
  }

  /**
   If an approval does come between a destroy call's reading of a requested workspace and its first write, and the
   destroyer is quicker than the worker, the reservation stays live although everybody has finished and no workspace
   names it. Only reconciling frees it.
   */
  lemma ApprovalDuringDestroyLeaks(x: System, k: nat, op: Op, now: int, how: LaunchEnd)
    requires RaceInv(x) && k in x.destroyers && x.destroyers[k].stage == MarkDestroying
    requires op.OpApprove? && op.id == x.destroyers[k].id && FreshDraw(x.db, op.draw)
    requires ApproveWorkspace(x.db, op.id, op.actor, op.draw, now).1 == Done
    ensures var after, labels := Next(x, BySpawn(op, now)), Finish(k, op.id, how, now, 5);
            PermittedPlay(after, labels) && LeaksFor(Play(after, labels), k, op.id, op.draw.alloc)
  {
    hide RaceInv, ApproveWorkspace, FreshDraw, Next, Blind, LeaksFor, PermittedPlay;
    ApprovalStartsBlind(x, k, op, now);
    BlindLeaks(Next(x, BySpawn(op, now)), k, op.id, MarkDestroying, Worker(op.draw.alloc, Load), how, now);
  }

  /** Whatever is permitted to happen from here on, the workspace's reservation does not leak. */
  ghost predicate NeverLeaks(x: System, id: Id) { forall labels :: PermittedPlay(x, labels) ==> !Leaked(Play(x, labels), id) }

  /** An approval that succeeds is safe exactly when no destroy call has read the workspace without having written it. */
  lemma ApprovalIsSafeExactly(x: System, op: Op, now: int)
    requires RaceInv(x) && op.OpApprove? && FreshDraw(x.db, op.draw)
    requires ApproveWorkspace(x.db, op.id, op.actor, op.draw, now).1 == Done
    ensures NoStaleDestroyer(x, op.id) <==> NeverLeaks(Next(x, BySpawn(op, now)), op.id)
  {
    hide RaceInv, ApproveWorkspace, FreshDraw, Next, PermittedPlay, Leaked, Play;
    var y := Next(x, BySpawn(op, now));
    if NoStaleDestroyer(x, op.id) {
      StepKeepsRace(x, BySpawn(op, now));
      forall labels | PermittedPlay(y, labels) ensures !Leaked(Play(y, labels), op.id) {
        PlayKeepsRace(y, labels);
        PlayedNeverLeaked(Play(y, labels), op.id);
      }
    } else {
      var k :| k in x.destroyers && x.destroyers[k].id == op.id && x.destroyers[k].stage == MarkDestroying;
      ApprovalDuringDestroyLeaks(x, k, op, now, Launched);
    }
  }

  lemma PlayedNeverLeaked(x: System, id: Id)
    requires RaceInv(x)
    ensures !Leaked(x, id)
  {
    hide RaceInv;
    if id in x.workers {
      WorkersKeepTheirs(x, id);
    }
  }

  /** A reconciling pass frees what leaked: nobody names it, so nobody needs it. */
  lemma ReconcilingFreesLeak(x: System, id: Id, y: World, now: int)
    requires Leaked(x, id) && C.Conserved(x.db) && NIL !in x.db.allocs && Reconcile.Reconciles(x.AsWorld(), y, now)
    ensures !y.db.Live(x.workers[id].alloc)
  {
    assert Orphan(x.db, x.workers[id].alloc);
    hide C.Conserved, Reconcile.Reconciles;
    Reconcile.ReconcileReleasesExactly(x.AsWorld(), y, now);
  }
}
