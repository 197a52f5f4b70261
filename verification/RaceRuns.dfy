/** What holds in every interleaving of workers, destroy runs and calls. */
module RaceRuns {
  import opened Amounts
  import opened Models
  import opened Placement
  import opened Store
  import opened App
  import opened AppInv
  import opened AppSteps
  import opened Moves
  import opened Race
  import opened RaceWorker
  import opened RaceDestroyers
  import opened RaceCalls
  import C = Conservation

  lemma StepKeepsRace(x: System, l: Label)
    requires RaceInv(x) && Permitted(x, l)
    ensures RaceInv(Next(x, l))
  {
    hide RaceInv, Spawn, Do, NextWorker, NextDestroyer, C.Next, C.Legal, FreshDraw, NoStaleDestroyer;
    match l
    case BySpawn(op, now) =>
      if op.OpCreate? {
        CreateKeepsRace(x, op, now);
      } else {
        ApproveKeepsRace(x, op, now);
      }
    case ByCall(op, now) =>
      if op.OpFailStuck? {
        FailStuckKeepsRace(x, op.id, now);
      } else if op.OpReleaseOrphan? {
        OrphanKeepsRace(x, op.alloc, now);
      } else {
        QuietCallKeepsInv(x, op, now);
      }
    case ByLedger(step) => LedgerStepKeepsRace(x, step);
    case ByWorker(id, how, now) => if id in x.workers { WorkerKeepsInv(x, id, how, now); }
    case ByDestroy(k, id) => BeginKeepsRace(x, k, id);
    case ByDestroyer(k, now) => if k in x.destroyers { DestroyerKeepsInv(x, k, now); }
  }

  ghost predicate StepAt(run: seq<System>, labels: seq<Label>, i: nat)
    requires |run| == |labels| + 1 && i < |labels|
  {
    Permitted(run[i], labels[i]) && run[i + 1] == Next(run[i], labels[i])
  }

  ghost predicate Run(run: seq<System>, labels: seq<Label>) {
    |run| == |labels| + 1 && forall i :: 0 <= i < |labels| ==> StepAt(run, labels, i)
  }

  lemma StepOf(run: seq<System>, labels: seq<Label>, i: nat)
    requires Run(run, labels) && i < |labels|
    ensures Permitted(run[i], labels[i]) && run[i + 1] == Next(run[i], labels[i])
  {
    hide Permitted, Next;
    assert StepAt(run, labels, i);
  }

  lemma {:induction false} RaceInvOverRuns(run: seq<System>, labels: seq<Label>, n: nat)
    requires Run(run, labels) && RaceInv(run[0]) && n <= |labels|
    ensures RaceInv(run[n])
  {
    hide RaceInv, Next, Permitted, StepAt;
    if n > 0 {
      RaceInvOverRuns(run, labels, n - 1);
      StepOf(run, labels, n - 1);
      StepKeepsRace(run[n - 1], labels[n - 1]);
    }
  }

  /**
   In every interleaving a workspace that runs (or is stopped, suspended, degraded or lost) holds an active allocation
   and has its instance, and one that is still being provisioned holds its reservation, however late Launch returns.
   */
  lemma RunningIsActive(run: seq<System>, labels: seq<Label>, n: nat, id: Id)
    requires Run(run, labels) && RaceInv(run[0]) && n <= |labels| && id in run[n].db.workspaces
    ensures var x := run[n];
            var w := x.db.workspaces[id];
            && (w.status in {Running, Stopped, Suspended, FabricDegraded, NodeLost}
                ==> w.alloc in x.db.allocs && x.db.allocs[w.alloc].state == Active && id in x.guests)
            && (w.status == Provisioning ==> w.alloc in x.db.allocs && x.db.allocs[w.alloc].state in {Reserved, Active})
  {
    RaceInvOverRuns(run, labels, n);
    SpotFacts(run[n], id);
    hide RaceInv, Run, At, Safe;
    RunningSpot(run[n], id);
  }

  lemma RunningSpot(x: System, id: Id)
    requires id in x.db.workspaces && Safe(At(x, id))
    ensures var w := x.db.workspaces[id];
            && (w.status in {Running, Stopped, Suspended, FabricDegraded, NodeLost}
                ==> w.alloc in x.db.allocs && x.db.allocs[w.alloc].state == Active && id in x.guests)
            && (w.status == Provisioning ==> w.alloc in x.db.allocs && x.db.allocs[w.alloc].state in {Reserved, Active})
  {
    hide AnyIn;
  }

  predicate Gone(x: System, id: Id) { id in x.db.workspaces && x.db.workspaces[id].status in {Destroying, Destroyed} }

  lemma ReleaseLeavesWorkspaces(s: State, a: Id)
    ensures s.Release(a).0.workspaces == s.workspaces && s.Activate(a).0.workspaces == s.workspaces
  {}

  /** A worker writes only a workspace that is provisioning. */
  lemma WorkerWritesProvisioning(x: System, id: Id, how: LaunchEnd, now: int)
    requires id in x.workers
    ensures var t := NextWorker(x, id, how, now).db.workspaces;
            t == x.db.workspaces
            || (id in x.db.workspaces && x.db.workspaces[id].status == Provisioning && id in t && t == x.db.workspaces[id := t[id]])
  {
    hide State.Release, State.Activate;
    ReleaseLeavesWorkspaces(x.db, x.workers[id].alloc);
    match x.workers[id].pc
    case Load =>
    case Recheck(_) =>
    case Launch =>
    case Activate(_) =>
    case CommitFailed(_) =>
    case CommitRunning(_) =>
    case _ =>
  }

  lemma WorkerLeavesGone(x: System, id: Id, how: LaunchEnd, now: int, j: Id)
    requires id in x.workers && Gone(x, j)
    ensures Gone(NextWorker(x, id, how, now), j)
  {
    WorkerWritesProvisioning(x, id, how, now);
    hide NextWorker;
  }

  lemma DestroyerLeavesGone(x: System, k: nat, now: int, j: Id)
    requires k in x.destroyers && Gone(x, j)
    ensures Gone(NextDestroyer(x, k, now), j)
  {
    hide State.Release;
    ReleaseLeavesWorkspaces(x.db, x.destroyers[k].w.alloc);
    match x.destroyers[k].stage
    case MarkDestroying =>
    case MarkDestroyed =>
    case _ =>
  }

  lemma CallLeavesGone(x: System, op: Op, now: int, j: Id)
    requires Legal(x.AsWorld(), op) && Gone(x, j)
    ensures var y := Do(x.AsWorld(), op, now); j in y.db.workspaces && y.db.workspaces[j].status.Gone()
  {
    hide Do, Legal, RestoredStatus;
    EveryMoveIsAllowed(x.AsWorld(), op, now, j);
  }

  lemma StepLeavesGone(x: System, l: Label, j: Id)
    requires Permitted(x, l) && Gone(x, j)
    ensures Gone(Next(x, l), j)
  {
    hide Do, NextWorker, NextDestroyer, C.Next, C.Legal, FreshDraw, NoStaleDestroyer;
    match l
    case BySpawn(op, now) => CallLeavesGone(x, op, now, j);
    case ByCall(op, now) => CallLeavesGone(x, op, now, j);
    case ByLedger(step) => LedgerStepStates(x.db, step, NIL);
    case ByWorker(id, how, now) => if id in x.workers { WorkerLeavesGone(x, id, how, now, j); }
    case ByDestroy(k, id) =>
    case ByDestroyer(k, now) => if k in x.destroyers { DestroyerLeavesGone(x, k, now, j); }
  }

  /** Once destroying or destroyed, forever one of the two: no late write brings a workspace back. */
  lemma {:induction false} GoneIsForever(run: seq<System>, labels: seq<Label>, k: nat, n: nat, id: Id)
    requires Run(run, labels) && k <= n <= |labels| && Gone(run[k], id)
    ensures Gone(run[n], id)
  {
    if k < n {
      hide Next, Permitted, Gone;
      GoneIsForever(run, labels, k, n - 1, id);
      assert StepAt(run, labels, n - 1);
      StepLeavesGone(run[n - 1], labels[n - 1], id);
    }
  }

  ghost predicate AllOver(x: System) {
    && (forall id :: id in x.workers ==> x.workers[id].pc.Finished?)
    && (forall k :: k in x.destroyers ==> x.destroyers[k].stage.Over?)
  }

  /** A worker is done with a reservation that is still live although no workspace names it. */
  ghost predicate Leaked(x: System, id: Id) {
    && id in x.workers && x.workers[id].pc.Finished? && x.db.Live(x.workers[id].alloc)
    && forall j :: j in x.db.workspaces ==> x.db.workspaces[j].alloc != x.workers[id].alloc
  }

  lemma WorkersKeepTheirs(x: System, id: Id)
    requires RaceInv(x) && id in x.workers
    ensures id in x.db.workspaces && x.db.workspaces[id].alloc == x.workers[id].alloc && !Leaked(x, id)
  {
    hide C.Conserved, AllSafe, OneOwner, CopyOk, State.Live;
    assert WorkerOk(x.db, id, x.workers[id]);
  }

  /**
   In every interleaving a provisioned reservation stays with its workspace. When every worker and destroyer has
   finished: nothing is left destroying, whatever is destroyed or failed has no instance and neither its workspace's
   allocation nor its worker's reservation is live, and every node counts exactly what its live allocations hold.
   */
  lemma NothingIsLeaked(run: seq<System>, labels: seq<Label>, n: nat)
    requires Run(run, labels) && RaceInv(run[0]) && n <= |labels|
    ensures var x := run[n];
            && C.Conserved(x.db)
            && (forall id :: id in x.workers ==>
                  id in x.db.workspaces && x.db.workspaces[id].alloc == x.workers[id].alloc && !Leaked(x, id))
    ensures var x := run[n];
            AllOver(x) ==> forall id :: id in x.db.workspaces ==> AtRest(x, id)
  {
    RaceInvOverRuns(run, labels, n);
    var x := run[n];
    RaceConserved(x);
    hide Run, C.Conserved, RaceInv, AtRest, Leaked;
    forall id | id in x.workers
      ensures id in x.db.workspaces && x.db.workspaces[id].alloc == x.workers[id].alloc && !Leaked(x, id)
    {
      WorkersKeepTheirs(x, id);
    }
    if AllOver(x) {
      forall id | id in x.db.workspaces ensures AtRest(x, id) {
        OverIsAtRest(x, id);
      }
    }
  }

  /** What a workspace holds when nothing is going on. */
  predicate AtRest(x: System, id: Id)
    requires id in x.db.workspaces
  {
    var w := x.db.workspaces[id];
    && w.status != Destroying
    && (w.status in {Destroyed, Failed}
        ==> !x.db.Live(w.alloc) && id !in x.guests && (id in x.workers ==> !x.db.Live(x.workers[id].alloc)))
  }

  lemma OverIsAtRest(x: System, id: Id)
    requires RaceInv(x) && AllOver(x) && id in x.db.workspaces
    ensures AtRest(x, id)
  {
    hide RaceInv, Leaked, C.Conserved, Safe;
    SpotFacts(x, id);
    OverSpot(x, id);
    if id in x.workers {
      WorkersKeepTheirs(x, id);
    }
    hide AllOver, At;
    EndOfSpot(At(x, id));
  }

  lemma OverSpot(x: System, id: Id)
    requires AllOver(x) && id in x.db.workspaces
    ensures var s := At(x, id);
            && !s.busy && !s.reaping && (s.pc.Some? ==> s.pc.value.Finished?)
            && s.st == x.db.workspaces[id].status && s.inst == (id in x.guests) && s.live == x.db.Live(x.db.workspaces[id].alloc)
  {}

  lemma EndOfSpot(s: Spot)
    requires Safe(s) && !s.busy && !s.reaping && (s.pc.Some? ==> s.pc.value.Finished?)
    ensures s.st != Destroying && (s.st in {Destroyed, Failed} ==> !s.live && !s.inst)
  {}

  /** How many more steps of its own a worker takes at most. */
  function Left(pc: Pc): nat {
    match pc
    case Load => 7
    case Launch => 6
    case Recheck(_) => 5
    case Activate(_) => 4
    case CommitRunning(_) => 3
    case CommitFailed(_) => 3
    case DropInstance => 2
    case Finished => 0
    case _ => 1
  }

  /** A worker finishes: each step of its own brings it closer, whatever the others do in between. */
  lemma WorkersFinish(x: System, id: Id, how: LaunchEnd, now: int)
    requires id in x.workers
    ensures var y := NextWorker(x, id, how, now);
            id in y.workers && (x.workers[id].pc.Finished? || Left(y.workers[id].pc) < Left(x.workers[id].pc))
  {
    hide State.Release, State.Activate, State.UpdateWorkspaceIfStatus;
    match x.workers[id].pc
    case Load =>
    case Recheck(_) =>
    case Launch =>
    case Activate(_) =>
    case CommitFailed(_) =>
    case CommitRunning(_) =>
    case _ =>
  }

  function StagesLeft(stage: Stage): nat {
    match stage
    case MarkDestroying => 5
    case DestroyInstance => 4
    case ReleaseAlloc => 3
    case MarkDestroyed => 2
    case LogDestroy => 1
    case Over => 0
  }

  /** So does a destroy run. */
  lemma DestroyersFinish(x: System, k: nat, now: int)
    requires k in x.destroyers
    ensures var y := NextDestroyer(x, k, now);
            k in y.destroyers && (x.destroyers[k].stage.Over? || StagesLeft(y.destroyers[k].stage) + 1 == StagesLeft(x.destroyers[k].stage))
  {
    hide State.Release;
    match x.destroyers[k].stage
    case MarkDestroying =>
    case MarkDestroyed =>
    case _ =>
  }

  lemma EmptyRace()
    ensures RaceInv(System(EMPTY, map[], map[], map[]))
  {}
}
