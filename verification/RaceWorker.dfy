/** Every step of a provision worker keeps the invariant of Race. */
module RaceWorker {
  import opened Amounts
  import opened Models
  import opened Placement
  import opened Store
  import opened App
  import opened AppInv
  import opened AppSteps
  import opened Moves
  import opened Race
  import C = Conservation
  import R = Review

  lemma ReleaseStates(s: State, a: Id)
    ensures var t := s.Release(a).0;
            && t.workspaces == s.workspaces && (NIL !in s.allocs ==> NIL !in t.allocs) && !t.Live(a) && !IsActive(t, a)
            && t.audit == s.audit && forall b :: b != a ==> SameState(s, t, b)
  {
    ReleaseEffect(s, a);
    hide State.Release;
  }

  lemma ActivateStates(s: State, a: Id)
    ensures var (t, r) := s.Activate(a);
            && t.workspaces == s.workspaces && t.audit == s.audit && (NIL !in s.allocs ==> NIL !in t.allocs) && (forall b :: b != a ==> SameState(s, t, b))
            && (r == Done <==> s.Live(a)) && (t.Live(a) <==> s.Live(a)) && (IsActive(t, a) <==> s.Live(a))
  {}

  /** The worker goes on from x to pc, having written at most its workspace, its allocation and its instance. */
  ghost predicate Worked(x: System, y: System, id: Id, pc: Pc) {
    && id in x.workers && id in x.db.workspaces && id in y.db.workspaces
    && y == x.(db := y.db, guests := y.guests).Goto(id, pc)
    && CopyOk(pc, x.workers[id].alloc)
    && NIL !in y.db.allocs
    && y.db.workspaces == x.db.workspaces[id := y.db.workspaces[id]]
    && y.db.workspaces[id].alloc == x.db.workspaces[id].alloc
    && (y.db.workspaces[id].status == Requested ==> x.db.workspaces[id].status == Requested)
    && (forall a :: a != x.workers[id].alloc ==> SameState(x.db, y.db, a))
    && (forall j :: j != id ==> (j in y.guests <==> j in x.guests))
    && (forall j :: SameOrigin(x.db, y.db, j))
  }

  lemma SameLog(s: State, t: State)
    requires t.audit == s.audit
    ensures forall j :: SameOrigin(s, t, j)
  {}

  /** Entries other than destroy requests leave every review's origin alone. */
  lemma LogKeepsOrigins(s: State, t: State, e: Entry)
    requires t.audit == s.audit + [e] && e.action != DESTROY_REQUEST
    ensures forall j :: SameOrigin(s, t, j)
  {
    forall j ensures SameOrigin(s, t, j) {
      R.OriginOfAppended(s.audit, e, j);
    }
  }

  lemma WorkedIsLocal(x: System, y: System, id: Id, pc: Pc)
    requires Worked(x, y, id, pc) && WorkerOk(x.db, id, x.workers[id])
    ensures Local(x, y, id) && WorkerOk(y.db, id, y.workers[id])
  {
    hide SameState, SameOrigin, CopyOk, AnyIn;
    forall j ensures SameDestroyers(x, y, j) {
      forall stages ensures AnyIn(x, j, stages) == AnyIn(y, j, stages) {
        SameDestroyersAny(x, y, j, stages);
      }
    }
  }

  lemma SameDestroyersAny(x: System, y: System, j: Id, stages: set<Stage>)
    requires y.destroyers == x.destroyers
    ensures AnyIn(x, j, stages) == AnyIn(y, j, stages)
  {}

  lemma OwnDestroyersOk(x: System, y: System, id: Id)
    requires Linked(x) && id in x.db.workspaces && id in y.db.workspaces && y.destroyers == x.destroyers
    requires y.db.workspaces[id].alloc == x.db.workspaces[id].alloc
    ensures forall k :: k in y.destroyers && y.destroyers[k].id == id ==> DestroyerOk(y.db, y.destroyers[k])
  {
    hide OneOwner, WorkerOk;
    forall k | k in y.destroyers && y.destroyers[k].id == id ensures DestroyerOk(y.db, y.destroyers[k]) {
      assert DestroyerOk(x.db, x.destroyers[k]);
    }
  }

  lemma WorkerGoes(x: System, y: System, id: Id, pc: Pc)
    requires RaceInv(x) && Worked(x, y, id, pc) && C.Conserved(y.db) && Safe(At(y, id))
    ensures RaceInv(y)
  {
    WorkerFacts(x, id);
    WorkedIsLocal(x, y, id, pc);
    OwnDestroyersOk(x, y, id);
    hide C.Conserved, Safe, At, Linked, AllSafe, Local, WorkerOk;
    LocalKeepsInv(x, y, id);
  }

  /** The spot of the worker's own workspace after its step. */
  lemma WorkerSpot(x: System, y: System, id: Id, pc: Pc)
    requires id in x.workers && id in x.db.workspaces && id in y.db.workspaces
    requires y == x.(db := y.db, guests := y.guests).Goto(id, pc) && SameOrigin(x.db, y.db, id)
    ensures var w := y.db.workspaces[id];
            At(y, id) == At(x, id).(st := w.status, live := y.db.Live(w.alloc), active := IsActive(y.db, w.alloc),
                                    inst := id in y.guests, pc := Some(pc))
  {}

  lemma WorkerFacts(x: System, id: Id)
    requires RaceInv(x) && id in x.workers
    ensures id in x.db.workspaces && Safe(At(x, id)) && WorkerOk(x.db, id, x.workers[id]) && NIL !in x.db.allocs && C.Conserved(x.db)
    ensures x.db.workspaces[id := x.db.workspaces[id]] == x.db.workspaces
  {
    hide C.Conserved, OneOwner, Safe, At;
  }

  lemma ReleasedSpot(x: System, y: System, id: Id)
    requires id in x.workers && id in x.db.workspaces && WorkerOk(x.db, id, x.workers[id]) && Safe(At(x, id))
    requires y == x.(db := x.db.Release(x.workers[id].alloc).0).Goto(id, Finished)
    requires x.workers[id].pc.ReleaseFailed? || x.workers[id].pc.DropAllocation?
    ensures id in y.db.workspaces && Safe(At(y, id))
  {
    ReleaseStates(x.db, x.workers[id].alloc);
    SameLog(x.db, y.db);
    WorkerSpot(x, y, id, Finished);
    hide State.Release, At, SameState;
  }

  lemma ReleasedWorked(x: System, y: System, id: Id)
    requires id in x.workers && id in x.db.workspaces && WorkerOk(x.db, id, x.workers[id]) && NIL !in x.db.allocs
    requires y == x.(db := x.db.Release(x.workers[id].alloc).0).Goto(id, Finished)
    ensures Worked(x, y, id, Finished)
  {
    ReleaseStates(x.db, x.workers[id].alloc);
    SameLog(x.db, y.db);
    hide State.Release, SameState, SameOrigin;
  }

  lemma WorkerReleases(x: System, y: System, id: Id)
    requires RaceInv(x) && id in x.workers && (x.workers[id].pc.ReleaseFailed? || x.workers[id].pc.DropAllocation?)
    requires y == x.(db := x.db.Release(x.workers[id].alloc).0).Goto(id, Finished)
    ensures RaceInv(y)
  {
    hide C.Conserved, State.Release, RaceInv, At, Safe, WorkerOk, Worked;
    WorkerFacts(x, id);
    C.ReleaseConserves(x.db, x.workers[id].alloc);
    ReleasedSpot(x, y, id);
    ReleasedWorked(x, y, id);
    WorkerGoes(x, y, id, Finished);
  }

  lemma SameLedgerStates(s: State, t: State)
    requires t.allocs == s.allocs
    ensures forall a :: SameState(s, t, a)
  {}

  lemma QuietWorked(x: System, y: System, id: Id, pc: Pc, w: Workspace)
    requires id in x.workers && id in x.db.workspaces && NIL !in x.db.allocs && CopyOk(pc, x.workers[id].alloc)
    requires y == x.(db := x.db.(workspaces := x.db.workspaces[id := w], audit := y.db.audit), guests := y.guests).Goto(id, pc)
    requires w.alloc == x.db.workspaces[id].alloc && (w.status == Requested ==> x.db.workspaces[id].status == Requested)
    requires forall j :: j != id ==> (j in y.guests <==> j in x.guests)
    requires forall j :: SameOrigin(x.db, y.db, j)
    ensures Worked(x, y, id, pc)
    ensures At(y, id) == At(x, id).(st := w.status, inst := id in y.guests, pc := Some(pc))
  {
    SameLedgerStates(x.db, y.db);
    WorkerSpot(x, y, id, pc);
    hide At, SameState, SameOrigin, CopyOk;
  }

  /** A step of the worker that leaves the ledger alone. */
  lemma QuietWork(x: System, y: System, id: Id, pc: Pc, w: Workspace)
    requires RaceInv(x) && id in x.workers && id in x.db.workspaces && CopyOk(pc, x.workers[id].alloc)
    requires y == x.(db := x.db.(workspaces := x.db.workspaces[id := w], audit := y.db.audit), guests := y.guests).Goto(id, pc)
    requires w.alloc == x.db.workspaces[id].alloc && (w.status == Requested ==> x.db.workspaces[id].status == Requested)
    requires forall j :: j != id ==> (j in y.guests <==> j in x.guests)
    requires forall j :: SameOrigin(x.db, y.db, j)
    requires Safe(At(x, id).(st := w.status, inst := id in y.guests, pc := Some(pc)))
    ensures RaceInv(y)
  {
    hide C.Conserved, RaceInv, At, Safe, WorkerOk, Worked, CopyOk, SameOrigin;
    WorkerFacts(x, id);
    QuietWorked(x, y, id, pc, w);
    ConservedIgnores(x.db, y.db);
    WorkerGoes(x, y, id, pc);
  }

  /** Where a worker may go on to without touching anything. */
  predicate Waits(s: Spot, pc: Pc) {
    s.pc.Some? && match s.pc.value
                  case Load => if s.st == Provisioning then pc == Launch else pc == Finished
                  case Launch => pc == Finished || pc == Recheck(false)
                  case Recheck(launched) =>
                    if s.st != Provisioning then pc == DropInstance else if launched then pc.Activate? else pc.CommitFailed?
                  case CommitFailed(_) => s.st != Provisioning && pc == CleanUp
                  case CommitRunning(_) => s.st != Provisioning && pc == CleanUp
                  case Activate(_) => !s.live && pc == DropInstance
                  case Log => pc == Finished
                  case _ => false
  }

  lemma WaitingIsSafe(s: Spot, pc: Pc)
    requires Safe(s) && Waits(s, pc)
    ensures Safe(s.(pc := Some(pc)))
  {}

  lemma LaunchingIsSafe(s: Spot)
    requires Safe(s) && s.pc == Some(Launch)
    ensures Safe(s.(inst := true, pc := Some(Recheck(true))))
  {}

  lemma CommittingIsSafe(s: Spot, won: Pc)
    requires Safe(s) && s.st == Provisioning && s.pc.Some?
    ensures s.pc.value.CommitFailed? ==> Safe(s.(st := Failed, pc := Some(ReleaseFailed)))
    ensures s.pc.value.CommitRunning? ==> Safe(s.(st := Running, pc := Some(Log)))
  {}

  lemma DroppingIsSafe(s: Spot)
    requires Safe(s)
    ensures s.pc == Some(DropInstance) ==> Safe(s.(inst := false, pc := Some(DropAllocation)))
    ensures s.pc == Some(CleanUp) ==> Safe(s.(inst := false, pc := Some(Finished)))
  {}

  lemma SpotReads(x: System, id: Id)
    requires id in x.db.workspaces && id in x.workers
    ensures var s := At(x, id);
            && s.st == x.db.workspaces[id].status && s.pc == Some(x.workers[id].pc) && s.inst == (id in x.guests)
            && s.live == x.db.Live(x.db.workspaces[id].alloc)
  {}

  lemma WorkerWaits(x: System, id: Id, pc: Pc)
    requires RaceInv(x) && id in x.workers && id in x.db.workspaces && CopyOk(pc, x.workers[id].alloc)
    requires Waits(At(x, id), pc)
    ensures RaceInv(x.Goto(id, pc))
  {
    hide RaceInv, Safe, CopyOk, WorkerOk, At, Waits;
    WorkerFacts(x, id);
    WaitingIsSafe(At(x, id), pc);
    SpotReads(x, id);
    QuietWork(x, x.Goto(id, pc), id, pc, x.db.workspaces[id]);
  }

  /** Nothing but the ledger is touched by an activation, and it succeeds exactly when the allocation is still live. */
  lemma WorkerActivates(x: System, y: System, id: Id, pc: Pc)
    requires RaceInv(x) && id in x.workers && x.workers[id].pc.Activate? && x.db.Activate(x.workers[id].alloc).1 == Done
    requires pc.CommitRunning? && CopyOk(pc, x.workers[id].alloc)
    requires y == x.(db := x.db.Activate(x.workers[id].alloc).0).Goto(id, pc)
    ensures RaceInv(y)
  {
    hide C.Conserved, State.Activate, RaceInv, At, Safe, WorkerOk, Worked, CopyOk;
    WorkerFacts(x, id);
    C.ActivateConserves(x.db, x.workers[id].alloc);
    ActivatedSpot(x, y, id, pc);
    ActivatedWorked(x, y, id, pc);
    WorkerGoes(x, y, id, pc);
  }

  lemma ActivatedSpot(x: System, y: System, id: Id, pc: Pc)
    requires id in x.workers && id in x.db.workspaces && WorkerOk(x.db, id, x.workers[id]) && Safe(At(x, id))
    requires x.workers[id].pc.Activate? && x.db.Activate(x.workers[id].alloc).1 == Done && pc.CommitRunning?
    requires y == x.(db := x.db.Activate(x.workers[id].alloc).0).Goto(id, pc)
    ensures id in y.db.workspaces && Safe(At(y, id))
  {
    ActivateStates(x.db, x.workers[id].alloc);
    SameLog(x.db, y.db);
    WorkerSpot(x, y, id, pc);
    hide State.Activate, At, SameState;
  }

  lemma ActivatedWorked(x: System, y: System, id: Id, pc: Pc)
    requires id in x.workers && id in x.db.workspaces && WorkerOk(x.db, id, x.workers[id]) && NIL !in x.db.allocs
    requires y == x.(db := x.db.Activate(x.workers[id].alloc).0).Goto(id, pc) && CopyOk(pc, x.workers[id].alloc)
    ensures Worked(x, y, id, pc)
  {
    ActivateStates(x.db, x.workers[id].alloc);
    SameLog(x.db, y.db);
    hide State.Activate, SameState, SameOrigin, CopyOk;
  }

  /** Committing a copy: it is written if the workspace is still provisioning, otherwise nothing is. */
  lemma WorkerCommits(x: System, id: Id, latest: Workspace, won: Pc)
    requires RaceInv(x) && id in x.workers && id in x.db.workspaces && latest.alloc == x.workers[id].alloc
    requires (x.workers[id].pc == CommitFailed(latest) && latest.status == Failed && won == ReleaseFailed)
             || (x.workers[id].pc == CommitRunning(latest) && latest.status == Running && won == Log)
    ensures var (db, r) := x.db.UpdateWorkspaceIfStatus(id, latest, Provisioning);
            RaceInv(x.(db := db).Goto(id, AfterCommit(r, won)))
  {
    hide RaceInv, At, Safe;
    WorkerFacts(x, id);
    SpotReads(x, id);
    if x.db.workspaces[id].status == Provisioning {
      CommittingIsSafe(At(x, id), won);
      QuietWork(x, x.(db := x.db.PutWorkspace(id, latest)).Goto(id, won), id, won, latest);
    } else {
      WorkerWaits(x, id, CleanUp);
    }
  }

  lemma WorkerDrops(x: System, id: Id, pc: Pc)
    requires RaceInv(x) && id in x.workers && id in x.db.workspaces
    requires (x.workers[id].pc == DropInstance && pc == DropAllocation) || (x.workers[id].pc == CleanUp && pc == Finished)
    ensures RaceInv(x.(guests := x.guests - {id}).Goto(id, pc))
  {
    hide RaceInv, At, Safe;
    WorkerFacts(x, id);
    SpotReads(x, id);
    DroppingIsSafe(At(x, id));
    QuietWork(x, x.(guests := x.guests - {id}).Goto(id, pc), id, pc, x.db.workspaces[id]);
  }

  lemma WorkerLaunches(x: System, id: Id, how: LaunchEnd, now: int)
    requires RaceInv(x) && id in x.workers && id in x.db.workspaces && x.workers[id].pc == Launch
    ensures RaceInv(NextWorker(x, id, how, now))
  {
    hide RaceInv, At, Safe;
    WorkerFacts(x, id);
    SpotReads(x, id);
    match how
    case NoCredentials => WorkerWaits(x, id, Finished);
    case LaunchFailed => WorkerWaits(x, id, Recheck(false));
    case Launched =>
      LaunchingIsSafe(At(x, id));
      QuietWork(x, x.(guests := x.guests[id := true]).Goto(id, Recheck(true)), id, Recheck(true), x.db.workspaces[id]);
  }

  lemma WorkerLooks(x: System, id: Id, how: LaunchEnd, now: int)
    requires RaceInv(x) && id in x.workers && id in x.db.workspaces && (x.workers[id].pc == Load || x.workers[id].pc.Recheck?)
    ensures RaceInv(NextWorker(x, id, how, now))
  {
    hide RaceInv, At, Safe;
    WorkerFacts(x, id);
    SpotReads(x, id);
    var pc, w := x.workers[id].pc, x.db.workspaces[id];
    if pc == Load {
      WorkerWaits(x, id, if w.status == Provisioning then Launch else Finished);
    } else if w.status != Provisioning {
      WorkerWaits(x, id, DropInstance);
    } else if pc.launched {
      WorkerWaits(x, id, Activate(w));
    } else {
      WorkerWaits(x, id, CommitFailed(w.(status := Failed, updatedAt := now)));
    }
  }

  lemma WorkerLogs(x: System, id: Id)
    requires RaceInv(x) && id in x.workers && id in x.db.workspaces && x.workers[id].pc == Log
    ensures RaceInv(x.(db := x.db.AddAudit(Entry(id, None, "workspace.create", None))).Goto(id, Finished))
  {
    hide RaceInv, At, Safe;
    WorkerFacts(x, id);
    SpotReads(x, id);
    WaitingIsSafe(At(x, id), Finished);
    LogKeepsOrigins(x.db, x.db.AddAudit(Entry(id, None, "workspace.create", None)), Entry(id, None, "workspace.create", None));
    QuietWork(x, x.(db := x.db.AddAudit(Entry(id, None, "workspace.create", None))).Goto(id, Finished), id, Finished, x.db.workspaces[id]);
  }

  lemma ActivateStep(x: System, id: Id, now: int)
    requires RaceInv(x) && id in x.workers && x.workers[id].pc.Activate?
    ensures var (db, r) := x.db.Activate(x.workers[id].alloc);
            RaceInv(x.(db := db).Goto(id, if r == Done then CommitRunning(x.workers[id].pc.latest.(status := Running, updatedAt := now))
                                          else DropInstance))
  {
    hide RaceInv, Safe, At, State.Activate, WorkerOk, CopyOk;
    WorkerFacts(x, id);
    CopyRuns(x, id, now);
    ActivateOutcome(x.db, x.workers[id].alloc);
    var (db, r) := x.db.Activate(x.workers[id].alloc);
    if r == Done {
      var pc := CommitRunning(x.workers[id].pc.latest.(status := Running, updatedAt := now));
      WorkerActivates(x, x.(db := db).Goto(id, pc), id, pc);
    } else {
      SpotReads(x, id);
      WorkerWaits(x, id, DropInstance);
    }
  }

  lemma CopyRuns(x: System, id: Id, now: int)
    requires id in x.workers && WorkerOk(x.db, id, x.workers[id]) && x.workers[id].pc.Activate?
    ensures CopyOk(CommitRunning(x.workers[id].pc.latest.(status := Running, updatedAt := now)), x.workers[id].alloc)
    ensures CopyOk(DropInstance, x.workers[id].alloc) && x.workers[id].alloc == x.db.workspaces[id].alloc
  {}

  lemma ActivateOutcome(s: State, a: Id)
    ensures var (t, r) := s.Activate(a); (r == Done <==> s.Live(a)) && (r != Done ==> t == s)
  {}

  lemma NotMissing(x: System, id: Id)
    requires id in x.workers && id in x.db.workspaces && Safe(At(x, id))
    ensures x.workers[id].pc != ReleaseMissing
  {}

  lemma WorkerKeepsInv(x: System, id: Id, how: LaunchEnd, now: int)
    requires RaceInv(x) && id in x.workers
    ensures RaceInv(NextWorker(x, id, how, now))
  {
    hide RaceInv, State.Release, State.Activate, State.UpdateWorkspaceIfStatus, Safe, At;
    WorkerFacts(x, id);
    match x.workers[id].pc
    case Load => WorkerLooks(x, id, how, now);
    case ReleaseMissing => NotMissing(x, id);
    case Launch => WorkerLaunches(x, id, how, now);
    case Recheck(_) => WorkerLooks(x, id, how, now);
    case CommitFailed(latest) => WorkerCommits(x, id, latest, ReleaseFailed);
    case ReleaseFailed => WorkerReleases(x, NextWorker(x, id, how, now), id);
    case Activate(latest) => ActivateStep(x, id, now);
    case CommitRunning(latest) => WorkerCommits(x, id, latest, Log);
    case Log => WorkerLogs(x, id);
    case DropInstance => WorkerDrops(x, id, DropAllocation);
    case DropAllocation => WorkerReleases(x, NextWorker(x, id, how, now), id);
    case CleanUp => WorkerDrops(x, id, Finished);
    case Finished =>
  }
}
