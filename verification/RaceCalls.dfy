/** Every call that takes one step, and every beginning of a worker or a destroy run, keeps the invariant of Race. */
module RaceCalls {
  import opened Amounts
  import opened Models
  import opened Placement
  import opened Store
  import opened App
  import opened AppInv
  import opened AppSteps
  import opened Moves
  import opened Race
  import opened RaceWorker
  import opened RaceDestroyers
  import opened ReviewRuns
  import C = Conservation
  import R = Review

  lemma QuietCallEffect(x: System, op: Op, now: int)
    requires QuietCall(x, op)
    ensures var y := Do(x.AsWorld(), op, now);
            OnlyStatus(x.AsWorld(), y, op.id) && ((op.OpStop? || op.OpStart?) && op.id !in x.guests ==> y == x.AsWorld())
  {
    hide OnlyStatus, RequestDestroy, ApproveDestroyProject, RejectDestroyProject, RejectDestroyPlatform, Stop, Start, Wake, SuspendIdle, CheckHealth, RejectWorkspace;
    var w := x.AsWorld();
    match op
    case OpReject(id, actor) => HealthIsQuiet(w, id, actor, now);
    case OpRequestDestroy(id, actor) => ReviewIsQuiet(w, id, actor, now);
    case OpDestroy(id, actor) => ReviewIsQuiet(w, id, actor, now);
    case OpApproveDestroyProject(id, actor) => ApprovalIsQuiet(w, id, actor, now);
    case OpRejectDestroyProject(id, actor) => RestoreIsQuiet(w, id, actor, now);
    case OpRejectDestroyPlatform(id, actor) => RestoreIsQuiet(w, id, actor, now);
    case OpStop(id, actor) => PowerIsQuiet(w, id, actor, now);
    case OpStart(id, actor) => PowerIsQuiet(w, id, actor, now);
    case OpWake(id) => IdleIsQuiet(w, id, 0, now);
    case OpSuspendIdle(id, hours) => IdleIsQuiet(w, id, hours, now);
    case OpHealth(id) => HealthIsQuiet(w, id, Actor(NIL, false, None), now);
  }

  /** A call that writes at most one workspace, its allocation and its instance. */
  ghost predicate Called(x: System, y: System, id: Id) {
    && id in x.db.workspaces && id in y.db.workspaces
    && y == x.(db := y.db, guests := y.guests)
    && NIL !in y.db.allocs
    && y.db.workspaces == x.db.workspaces[id := y.db.workspaces[id]]
    && y.db.workspaces[id].alloc == x.db.workspaces[id].alloc
    && (y.db.workspaces[id].status == Requested ==> x.db.workspaces[id].status == Requested)
    && (forall a :: a != x.db.workspaces[id].alloc ==> SameState(x.db, y.db, a))
    && (forall j :: j != id ==> (j in y.guests <==> j in x.guests))
    && (forall j :: j != id ==> SameOrigin(x.db, y.db, j))
  }

  lemma CalledIsLocal(x: System, y: System, id: Id)
    requires Called(x, y, id)
    ensures Local(x, y, id)
  {
    hide SameState, SameOrigin, AnyIn;
    forall j ensures SameDestroyers(x, y, j) {
      forall stages ensures AnyIn(x, j, stages) == AnyIn(y, j, stages) {
        SameDestroyersAny(x, y, j, stages);
      }
    }
  }

  lemma CallGoes(x: System, y: System, id: Id)
    requires RaceInv(x) && Called(x, y, id) && C.Conserved(y.db) && Safe(At(y, id))
    ensures RaceInv(y)
  {
    hide C.Conserved, Safe, At, AllSafe, Local, SameState, SameOrigin, OneOwner, CopyOk;
    CalledIsLocal(x, y, id);
    OwnDestroyersOk(x, y, id);
    if id in y.workers {
      assert WorkerOk(x.db, id, x.workers[id]);
    }
    LocalKeepsInv(x, y, id);
  }

  lemma CalledSpot(x: System, y: System, id: Id)
    requires id in x.db.workspaces && id in y.db.workspaces && y == x.(db := y.db, guests := y.guests)
    ensures var w := y.db.workspaces[id];
            At(y, id) == At(x, id).(st := w.status, live := y.db.Live(w.alloc), active := IsActive(y.db, w.alloc), inst := id in y.guests,
                                    origin := R.Origin(y.db.audit, id))
  {}

  lemma SpotFacts(x: System, id: Id)
    requires RaceInv(x) && id in x.db.workspaces
    ensures Safe(At(x, id)) && NIL !in x.db.allocs && C.Conserved(x.db) && x.db.workspaces[id := x.db.workspaces[id]] == x.db.workspaces
  {
    hide C.Conserved, OneOwner, Safe, At;
  }

  /** Moves of the quiet calls, by the table of Moves; entering a review records where it started, and staying keeps that. */
  predicate QuietMove(s: Spot, st: Status, origin: Option<Status>) {
    && (s.st.ReviewInFlight() ==> origin == s.origin)
    && (!s.st.ReviewInFlight() && st.ReviewInFlight() ==> origin == Some(s.st))
    && (|| st == s.st
        || (s.st == Requested && st == Rejected)
        || (!s.st.Gone() && st.ReviewInFlight())
        || (s.st.HealthActive() && st.HealthActive())
        || (s.st.ReviewInFlight() && Operational(s.origin) && st.HealthActive())
        || (s.st.ReviewInFlight() && s.origin == Some(Failed) && st == Failed)
        || (!s.st.Closed() && s.st != Requested && st.HealthActive() && s.inst && !AtWork(s.pc)))
  }

  lemma QuietMoveIsSafe(s: Spot, st: Status, origin: Option<Status>)
    requires Safe(s) && QuietMove(s, st, origin) && (s.reaping ==> s.marked)
    ensures Safe(s.(st := st, origin := origin))
  {}

  lemma ReapingIsMarked(x: System, id: Id)
    requires id in x.db.workspaces
    ensures At(x, id).reaping ==> At(x, id).marked
  {}

  /** What a harmless rejection restores. */
  lemma RestoresOperational(db: State, id: Id)
    requires RejectIsHarmless(db, id)
    ensures if AskedWhileOperational(db, id) then RestoredStatus(db, id).HealthActive()
            else RestoredStatus(db, id) == Failed && R.Origin(db.audit, id) == Some(Failed)
  {
    R.RestoredFromLog(db, id);
    hide RestoredStatus, R.Origin, R.HasRequest, R.Newer;
  }

  lemma TableIsQuiet(x: System, op: Op, now: int, id: Id)
    requires QuietCall(x, op) && op.id == id && id in x.db.workspaces
    requires MovesAsAllowed(x.AsWorld(), op, Do(x.AsWorld(), op, now), id)
    requires (op.OpStop? || op.OpStart?) && id !in x.guests ==> Do(x.AsWorld(), op, now) == x.AsWorld()
    requires OriginMoves(x, Do(x.AsWorld(), op, now), id)
    ensures var y := Do(x.AsWorld(), op, now);
            id in y.db.workspaces && QuietMove(At(x, id), y.db.workspaces[id].status, R.Origin(y.db.audit, id))
  {
    hide Do, RestoredStatus, AnyIn, R.Origin;
    if op.OpRejectDestroyProject? || op.OpRejectDestroyPlatform? {
      RestoresOperational(x.db, id);
    }
  }

  /** How the recorded origin of a review of id moves with a call. */
  ghost predicate OriginMoves(x: System, y: World, id: Id) {
    && id in x.db.workspaces && id in y.db.workspaces
    && (x.db.workspaces[id].status.ReviewInFlight() ==> SameOrigin(x.db, y.db, id))
    && (!x.db.workspaces[id].status.ReviewInFlight() && y.db.workspaces[id].status.ReviewInFlight()
        ==> R.Origin(y.db.audit, id) == Some(x.db.workspaces[id].status))
  }

  lemma QuietCallOrigins(x: System, op: Op, now: int)
    requires QuietCall(x, op) && op.id in x.db.workspaces && op.id in Do(x.AsWorld(), op, now).db.workspaces
    ensures var y := Do(x.AsWorld(), op, now);
            OriginMoves(x, y, op.id) && forall j :: j != op.id ==> SameOrigin(x.db, y.db, j)
  {
    hide RequestDestroy, R.Origin, R.HasRequest, AskedWhileOperational;
    var w := x.AsWorld();
    if MayAsk(op) {
      AskingLogsOrigin(w, op.id, op.actor, now, op.id);
      forall j | j != op.id ensures SameOrigin(x.db, Do(w, op, now).db, j) {
        AskingLogsOrigin(w, op.id, op.actor, now, j);
      }
    } else {
      QuietUnlessAsking(w, op, now);
      EveryMoveIsAllowed(w, op, now, op.id);
      hide Do, RestoredStatus;
    }
  }

  lemma QuietCallKeepsInv(x: System, op: Op, now: int)
    requires RaceInv(x) && QuietCall(x, op)
    ensures RaceInv(Next(x, ByCall(op, now)))
  {
    hide RaceInv, Do, At, Safe, QuietMove, MovesAsAllowed, C.Conserved, SameState, SameOrigin, OriginMoves, QuietCall;
    var y := Next(x, ByCall(op, now));
    QuietOpsHaveIds(x, op);
    QuietCallEffect(x, op, now);
    if op.id in x.db.workspaces {
      SpotFacts(x, op.id);
      EveryMoveIsAllowed(x.AsWorld(), op, now, op.id);
      QuietCallOrigins(x, op, now);
      TableIsQuiet(x, op, now, op.id);
      ReapingIsMarked(x, op.id);
      QuietMoveIsSafe(At(x, op.id), y.db.workspaces[op.id].status, R.Origin(y.db.audit, op.id));
      OnlyStatusIsCalled(x, y, op.id);
      ConservedIgnores(x.db, y.db);
      CallGoes(x, y, op.id);
    }
  }

  lemma QuietOpsHaveIds(x: System, op: Op)
    requires QuietCall(x, op)
    ensures Legal(x.AsWorld(), op) && !op.OpCreate? && !op.OpReleaseOrphan? && !op.OpLog? && !op.OpUpsertNode? && !op.OpDeleteNode?
  {}

  /** A status written by a quiet call is never requested, which no operation moves to. */
  lemma OnlyStatusIsCalled(x: System, y: System, id: Id)
    requires id in x.db.workspaces && OnlyStatus(x.AsWorld(), y.AsWorld(), id) && y == x.(db := y.db, guests := y.guests) && NIL !in x.db.allocs
    requires QuietMove(At(x, id), y.db.workspaces[id].status, R.Origin(y.db.audit, id))
    requires forall j :: j != id ==> SameOrigin(x.db, y.db, j)
    ensures Called(x, y, id) && At(y, id) == At(x, id).(st := y.db.workspaces[id].status, origin := R.Origin(y.db.audit, id))
  {
    SameLedgerStates(x.db, y.db);
    CalledSpot(x, y, id);
    hide SameState, SameOrigin, AnyIn, R.Origin;
    assert forall j :: j in y.guests <==> j in y.guests.Keys;
    assert forall j :: j in x.guests <==> j in x.guests.Keys;
  }

  lemma FailStuckEffect(x: System, id: Id, now: int)
    requires id in x.db.workspaces && Stuck(x.db.workspaces[id], now) && NIL !in x.db.allocs
    ensures var f := FailStuck(x.AsWorld(), id, now);
            var y := x.(db := f.db, guests := f.guests);
            && Called(x, y, id)
            && At(y, id) == At(x, id).(st := Failed, live := false, active := false, inst := false)
            && f.db == x.db.Release(x.db.workspaces[id].alloc).0.PutWorkspace(id, x.db.workspaces[id].(status := Failed, updatedAt := now))
  {
    var f := FailStuck(x.AsWorld(), id, now);
    var y := x.(db := f.db, guests := f.guests);
    ReleaseStates(x.db, x.db.workspaces[id].alloc);
    ReleaseNothing(x.db);
    hide State.Release, At;
    FailedStates(x.db.Release(x.db.workspaces[id].alloc).0, id, x.db.workspaces[id].(status := Failed, updatedAt := now));
    CalledSpot(x, y, id);
    hide SameState;
  }

  lemma FailedStates(s: State, id: Id, w: Workspace)
    ensures forall a :: SameState(s, s.PutWorkspace(id, w), a)
    ensures forall t: State, a :: SameState(t, s, a) ==> SameState(t, s.PutWorkspace(id, w), a)
  {}

  lemma FailingIsSafe(s: Spot)
    requires Safe(s) && s.st == Provisioning
    ensures Safe(s.(st := Failed, live := false, active := false, inst := false))
  {}

  lemma FailStuckKeepsRace(x: System, id: Id, now: int)
    requires RaceInv(x)
    ensures RaceInv(Next(x, ByCall(OpFailStuck(id), now)))
  {
    hide RaceInv, At, Safe, C.Conserved, State.Release, Called;
    if id in x.db.workspaces && Stuck(x.db.workspaces[id], now) {
      var y := Next(x, ByCall(OpFailStuck(id), now));
      SpotFacts(x, id);
      SpotStatus(x, id);
      FailStuckEffect(x, id, now);
      FailingIsSafe(At(x, id));
      C.ReleaseConserves(x.db, x.db.workspaces[id].alloc);
      ConservedIgnores(x.db.Release(x.db.workspaces[id].alloc).0, y.db);
      CallGoes(x, y, id);
    }
  }

  lemma SpotStatus(x: System, id: Id)
    requires id in x.db.workspaces
    ensures At(x, id).st == x.db.workspaces[id].status
  {}

  /** Only the ledger moves, and nothing that a workspace owns changes its state. */
  ghost predicate LedgerOnly(x: System, y: System) {
    && y == x.(db := y.db)
    && y.db.workspaces == x.db.workspaces
    && NIL !in y.db.allocs
    && (forall id :: id in x.db.workspaces ==> SameState(x.db, y.db, x.db.workspaces[id].alloc))
    && (forall j :: SameOrigin(x.db, y.db, j))
  }

  lemma LedgerSpot(x: System, y: System, id: Id)
    requires LedgerOnly(x, y) && id in x.db.workspaces
    ensures At(y, id) == At(x, id)
  {
    assert SameState(x.db, y.db, x.db.workspaces[id].alloc) && SameOrigin(x.db, y.db, id);
    hide AnyIn, R.Origin;
  }

  lemma LedgerLinks(x: System, y: System)
    requires LedgerOnly(x, y) && Linked(x)
    ensures Linked(y)
  {
    hide CopyOk, SameState, SameOrigin, OneOwner;
    forall j | j in y.workers ensures WorkerOk(y.db, j, y.workers[j]) {
      assert WorkerOk(x.db, j, x.workers[j]);
    }
    forall k | k in y.destroyers ensures DestroyerOk(y.db, y.destroyers[k]) {
      assert DestroyerOk(x.db, x.destroyers[k]);
    }
  }

  lemma LedgerKeepsRace(x: System, y: System)
    requires RaceInv(x) && LedgerOnly(x, y) && C.Conserved(y.db)
    ensures RaceInv(y)
  {
    hide C.Conserved, At, Safe;
    LedgerLinks(x, y);
    hide Linked;
    forall id | id in y.db.workspaces ensures Safe(At(y, id)) {
      LedgerSpot(x, y, id);
      assert Safe(At(x, id));
    }
  }

  lemma OrphanIsSafe(s: Spot)
    requires Safe(s) && s.st in {Destroyed, Failed}
    ensures Safe(s.(live := false, active := false))
  {}

  lemma OwnedRelease(x: System, id: Id)
    requires id in x.db.workspaces && NIL !in x.db.allocs
    ensures var y := x.(db := x.db.Release(x.db.workspaces[id].alloc).0);
            Called(x, y, id) && At(y, id) == At(x, id).(live := false, active := false)
  {
    var y := x.(db := x.db.Release(x.db.workspaces[id].alloc).0);
    ReleaseStates(x.db, x.db.workspaces[id].alloc);
    CalledSpot(x, y, id);
    hide State.Release, At, SameState;
  }

  lemma UnownedRelease(x: System, a: Id)
    requires NIL !in x.db.allocs && forall id :: id in x.db.workspaces ==> x.db.workspaces[id].alloc != a
    ensures LedgerOnly(x, x.(db := x.db.Release(a).0))
  {
    ReleaseStates(x.db, a);
    SameLog(x.db, x.db.Release(a).0);
    hide State.Release, SameState, SameOrigin;
  }

  lemma OrphanKeepsRace(x: System, a: Id, now: int)
    requires RaceInv(x)
    ensures RaceInv(Next(x, ByCall(OpReleaseOrphan(a), now)))
  {
    hide RaceInv, At, Safe, C.Conserved, State.Release, Called, LedgerOnly;
    if Orphan(x.db, a) {
      var y := Next(x, ByCall(OpReleaseOrphan(a), now));
      RaceConserved(x);
      C.ReleaseConserves(x.db, a);
      if id :| Owns(x.db, id, a) {
        SpotFacts(x, id);
        SpotStatus(x, id);
        OrphanIsSafe(At(x, id));
        OwnedRelease(x, id);
        CallGoes(x, y, id);
      } else {
        assert forall id :: id in x.db.workspaces && x.db.workspaces[id].alloc == a ==> Owns(x.db, id, a);
        UnownedRelease(x, a);
        LedgerKeepsRace(x, y);
      }
    }
  }

  lemma RaceConserved(x: System)
    requires RaceInv(x)
    ensures C.Conserved(x.db) && NIL !in x.db.allocs
  {
    hide C.Conserved, AllSafe, OneOwner;
  }

  lemma LedgerStepStates(s: State, step: C.Step, a: Id)
    requires step.Reserve? || step.Expand? || step.Upsert? || step.DeleteNode?
    requires step.Reserve? ==> step.a.id != a
    ensures C.Next(s, step).workspaces == s.workspaces && C.Next(s, step).audit == s.audit && SameState(s, C.Next(s, step), a)
  {
    hide State.Merged;
  }

  lemma LedgerStepNil(s: State, step: C.Step)
    requires NIL !in s.allocs && (step.Reserve? || step.Expand? || step.Upsert? || step.DeleteNode?)
    requires step.Reserve? ==> step.a.id != NIL
    ensures NIL !in C.Next(s, step).allocs
  {
    hide State.Merged;
  }

  lemma LedgerStepKeepsRace(x: System, step: C.Step)
    requires RaceInv(x) && Permitted(x, ByLedger(step))
    ensures RaceInv(Next(x, ByLedger(step)))
  {
    hide RaceInv, C.Conserved, C.Next, C.Legal, SameState, SameOrigin, C.ClampsIdle;
    RaceConserved(x);
    C.StepConserves(x.db, step);
    LedgerStepNil(x.db, step);
    LedgerStepStates(x.db, step, NIL);
    var y := Next(x, ByLedger(step));
    SameLog(x.db, y.db);
    forall id | id in x.db.workspaces ensures SameState(x.db, y.db, x.db.workspaces[id].alloc) {
      LedgerStepStates(x.db, step, x.db.workspaces[id].alloc);
    }
    LedgerKeepsRace(x, y);
  }

  // ----- a destroy run begins

  lemma BeginStages(x: System, y: System, k: nat, d: Destroyer, j: Id, stages: set<Stage>)
    requires k !in x.destroyers && y.destroyers == x.destroyers[k := d] && d.stage !in stages
    ensures AnyIn(x, j, stages) == AnyIn(y, j, stages)
  {
    if AnyIn(x, j, stages) {
      var i :| i in x.destroyers && x.destroyers[i].id == j && x.destroyers[i].stage in stages;
      assert y.destroyers[i].id == j;
    }
  }

  lemma BeginSpot(x: System, y: System, k: nat, d: Destroyer, j: Id)
    requires k !in x.destroyers && y == x.(destroyers := x.destroyers[k := d]) && d.stage == MarkDestroying && j in x.db.workspaces
    ensures At(y, j) == At(x, j)
  {
    BeginStages(x, y, k, d, j, MARKED);
    BeginStages(x, y, k, d, j, BUSY);
    BeginStages(x, y, k, d, j, REAPING);
    BeginStages(x, y, k, d, j, FREED);
    hide AnyIn;
  }

  lemma BeginLinks(x: System, y: System, k: nat, d: Destroyer)
    requires Linked(x) && y == x.(destroyers := x.destroyers[k := d]) && DestroyerOk(x.db, d)
    ensures Linked(y)
  {
    hide OneOwner, CopyOk;
    forall j | j in y.workers ensures WorkerOk(y.db, j, y.workers[j]) {
      assert WorkerOk(x.db, j, x.workers[j]);
    }
    forall i | i in y.destroyers ensures DestroyerOk(y.db, y.destroyers[i]) {
      assert i != k ==> DestroyerOk(x.db, x.destroyers[i]);
    }
  }

  lemma BeginKeepsSafe(x: System, y: System, k: nat, d: Destroyer)
    requires AllSafe(x) && k !in x.destroyers && y == x.(destroyers := x.destroyers[k := d]) && d.stage == MarkDestroying
    ensures AllSafe(y)
  {
    hide At, Safe, AnyIn;
    forall j | j in y.db.workspaces ensures Safe(At(y, j)) {
      BeginSpot(x, y, k, d, j);
      assert Safe(At(x, j));
    }
  }

  lemma BeginKeepsRace(x: System, k: nat, id: Id)
    requires RaceInv(x)
    ensures RaceInv(Next(x, ByDestroy(k, id)))
  {
    hide C.Conserved, Linked, AllSafe;
    if id in x.db.workspaces && k !in x.destroyers {
      var d := Destroyer(id, x.db.workspaces[id], MarkDestroying);
      var y := x.(destroyers := x.destroyers[k := d]);
      BeginLinks(x, y, k, d);
      BeginKeepsSafe(x, y, k, d);
    }
  }

  // ----- a workspace begins, or begins to be provisioned

  /** Workspace id is new, or was only requested; nothing else that matters changes. */
  ghost predicate Spawned(x: System, y: System, id: Id) {
    && y.guests == x.guests && y.destroyers == x.destroyers && NIL !in y.db.allocs
    && id in y.db.workspaces && y.db.workspaces == x.db.workspaces[id := y.db.workspaces[id]]
    && (id in x.db.workspaces ==> x.db.workspaces[id].status == Requested)
    && (forall k :: k in x.destroyers ==> x.destroyers[k].id != id)
    && (forall j :: j in x.db.workspaces && j != id ==> SameState(x.db, y.db, x.db.workspaces[j].alloc))
    && (forall j :: SameOrigin(x.db, y.db, j))
    && var w := y.db.workspaces[id];
       if w.status == Requested then w.alloc == NIL && id !in x.db.workspaces && y.workers == x.workers
       else
         && w.status == Provisioning && y.db.Live(w.alloc)
         && y.workers == x.workers[id := Worker(w.alloc, Load)]
         && (forall j :: j in x.db.workspaces && j != id ==> x.db.workspaces[j].alloc != w.alloc)
  }

  lemma SpawnedOther(x: System, y: System, id: Id, j: Id)
    requires Spawned(x, y, id) && j in x.db.workspaces && j != id
    ensures At(y, j) == At(x, j)
  {
    SameDestroyersAny(x, y, j, MARKED);
    SameDestroyersAny(x, y, j, BUSY);
    SameDestroyersAny(x, y, j, REAPING);
    SameDestroyersAny(x, y, j, FREED);
    hide AnyIn, R.Origin;
    assert SameState(x.db, y.db, x.db.workspaces[j].alloc) && SameOrigin(x.db, y.db, j);
  }

  lemma NobodyOn(x: System, id: Id, stages: set<Stage>)
    requires forall k :: k in x.destroyers ==> x.destroyers[k].id != id
    ensures !AnyIn(x, id, stages)
  {}

  lemma SpawnedSelf(x: System, y: System, id: Id)
    requires Spawned(x, y, id) && id !in x.workers && id !in x.guests
    ensures Safe(At(y, id))
  {
    NobodyOn(y, id, MARKED);
    NobodyOn(y, id, BUSY);
    NobodyOn(y, id, REAPING);
    NobodyOn(y, id, FREED);
    hide AnyIn, SameState, SameOrigin;
  }

  lemma SpawnedOwners(x: System, y: System, id: Id)
    requires Spawned(x, y, id) && OneOwner(x.db.workspaces)
    ensures OneOwner(y.db.workspaces)
  {
    hide SameState, SameOrigin;
  }

  lemma SpawnedLinks(x: System, y: System, id: Id)
    requires Spawned(x, y, id) && Linked(x) && id !in x.workers
    ensures Linked(y)
  {
    SpawnedOwners(x, y, id);
    hide SameState, SameOrigin, CopyOk, OneOwner;
    forall j | j in y.workers ensures WorkerOk(y.db, j, y.workers[j]) {
      if j != id {
        assert WorkerOk(x.db, j, x.workers[j]);
      } else {
        LoadsNothing(y.db.workspaces[id].alloc);
      }
    }
    forall k | k in y.destroyers ensures DestroyerOk(y.db, y.destroyers[k]) {
      assert DestroyerOk(x.db, x.destroyers[k]);
    }
  }

  lemma LoadsNothing(a: Id)
    ensures CopyOk(Load, a)
  {}

  lemma RequestedIsIdle(x: System, id: Id)
    requires RaceInv(x) && (id in x.db.workspaces ==> x.db.workspaces[id].status == Requested)
    ensures id !in x.workers && id !in x.guests
  {
    hide C.Conserved, OneOwner, CopyOk;
    if id in x.db.workspaces {
      ReapingIsMarked(x, id);
      SpotBasics(x, id);
      assert Safe(At(x, id));
      hide At;
    } else {
      WorkersHaveWorkspaces(x);
    }
  }

  lemma WorkersHaveWorkspaces(x: System)
    requires Linked(x)
    ensures forall id :: id in x.workers ==> id in x.db.workspaces
  {
    hide OneOwner, CopyOk;
    forall id | id in x.workers ensures id in x.db.workspaces {
      assert WorkerOk(x.db, id, x.workers[id]);
    }
  }

  lemma SpotBasics(x: System, id: Id)
    requires id in x.db.workspaces
    ensures var s := At(x, id);
            s.st == x.db.workspaces[id].status && s.inst == (id in x.guests) && (s.pc.Some? <==> id in x.workers)
  {}

  lemma SpawnedKeepsRace(x: System, y: System, id: Id)
    requires RaceInv(x) && Spawned(x, y, id) && C.Conserved(y.db)
    ensures RaceInv(y)
  {
    RequestedIsIdle(x, id);
    SpawnedLinks(x, y, id);
    SpawnedSelf(x, y, id);
    hide C.Conserved, At, Safe, Linked;
    forall j | j in y.db.workspaces ensures Safe(At(y, j)) {
      if j != id {
        SpawnedOther(x, y, id, j);
        assert Safe(At(x, j));
      }
    }
  }

  /** A requested workspace that no destroy call has just read has no destroyer at all. */
  lemma RequestedHasNoDestroyer(x: System, id: Id)
    requires RaceInv(x)
    requires if id in x.db.workspaces then x.db.workspaces[id].status == Requested && NoStaleDestroyer(x, id) else true
    ensures forall k :: k in x.destroyers ==> x.destroyers[k].id != id
  {
    hide RaceInv;
    forall k | k in x.destroyers ensures x.destroyers[k].id != id {
      MarkedIsGone(x, k);
    }
  }

  /** A destroyer that has done its first write knows its workspace to be gone. */
  lemma MarkedIsGone(x: System, k: nat)
    requires RaceInv(x) && k in x.destroyers
    ensures var d := x.destroyers[k];
            d.id in x.db.workspaces && (d.stage != MarkDestroying ==> x.db.workspaces[d.id].status.Gone())
  {
    DestroyerFacts(x, k);
    MarkedHere(x, k);
    SpotStatus(x, x.destroyers[k].id);
    hide At, RaceInv;
  }

  lemma MarkedHere(x: System, k: nat)
    requires k in x.destroyers && x.destroyers[k].id in x.db.workspaces
    ensures x.destroyers[k].stage in MARKED ==> At(x, x.destroyers[k].id).marked
  {}

  lemma TakenStates(s: State, node: Id, a: Allocation)
    requires node in s.nodes
    ensures var t := s.Take(node, a);
            && t.workspaces == s.workspaces && t.audit == s.audit && t.Live(a.id) && (NIL !in s.allocs && a.id != NIL ==> NIL !in t.allocs)
            && forall b :: b != a.id ==> SameState(s, t, b)
  {}

  lemma SpecNonNegative(w: Workspace)
    ensures w.Spec().size.NonNegative()
  {}

  /** Reserving and then writing the workspace. */
  lemma TakeAndPut(x: System, id: Id, w: Workspace, node: Id, a: Allocation, draw: Draw)
    requires RaceInv(x) && FreshDraw(x.db, draw) && node in x.db.nodes && a.id == draw.alloc && a.size.NonNegative()
    requires w.status == Provisioning && w.alloc == draw.alloc
    requires if id in x.db.workspaces then x.db.workspaces[id].status == Requested && NoStaleDestroyer(x, id) else true
    ensures RaceInv(x.(db := x.db.Take(node, a).PutWorkspace(id, w), workers := x.workers[id := Worker(draw.alloc, Load)]))
  {
    hide RaceInv, C.Conserved, SameState, SameOrigin, NoStaleDestroyer, State.Take;
    var y := x.(db := x.db.Take(node, a).PutWorkspace(id, w), workers := x.workers[id := Worker(draw.alloc, Load)]);
    RaceConserved(x);
    C.ReserveConserves(x.db, node, a);
    ConservedIgnores(x.db.Take(node, a), y.db);
    TakenStates(x.db, node, a);
    RequestedHasNoDestroyer(x, id);
    FailedStates(x.db.Take(node, a), id, w);
    SameLog(x.db, y.db);
    assert y.db.Live(w.alloc);
    SpawnedKeepsRace(x, y, id);
  }

  lemma PutRequested(x: System, id: Id, w: Workspace, e: Entry)
    requires RaceInv(x) && id !in x.db.workspaces && w.status == Requested && w.alloc == NIL && e.action != DESTROY_REQUEST
    ensures RaceInv(x.(db := x.db.PutWorkspace(id, w).AddAudit(e)))
  {
    hide RaceInv, C.Conserved, SameState, SameOrigin;
    var y := x.(db := x.db.PutWorkspace(id, w).AddAudit(e));
    LogKeepsOrigins(x.db, y.db, e);
    RaceConserved(x);
    ConservedIgnores(x.db, y.db);
    RequestedHasNoDestroyer(x, id);
    SameLedgerStates(x.db, y.db);
    SpawnedKeepsRace(x, y, id);
  }

  /** A reservation given back because the name was taken leaves a released allocation behind, and nothing else. */
  lemma TakeAndGiveBack(x: System, node: Id, a: Allocation, draw: Draw)
    requires RaceInv(x) && FreshDraw(x.db, draw) && node in x.db.nodes && a.id == draw.alloc && a.size.NonNegative()
    ensures RaceInv(x.(db := x.db.Take(node, a).Release(a.id).0))
  {
    hide RaceInv, C.Conserved, SameState, SameOrigin, State.Take, State.Release;
    var y := x.(db := x.db.Take(node, a).Release(a.id).0);
    RaceConserved(x);
    C.ReserveConserves(x.db, node, a);
    C.ReleaseConserves(x.db.Take(node, a), a.id);
    TakenStates(x.db, node, a);
    ReleaseStates(x.db.Take(node, a), a.id);
    SameLog(x.db, y.db);
    forall id | id in x.db.workspaces ensures SameState(x.db, y.db, x.db.workspaces[id].alloc) {
      StatesChain(x.db, x.db.Take(node, a), y.db, x.db.workspaces[id].alloc);
    }
    LedgerKeepsRace(x, y);
  }

  lemma StatesChain(s: State, t: State, u: State, a: Id)
    requires SameState(s, t, a) && SameState(t, u, a)
    ensures SameState(s, u, a)
  {}

  lemma ProvisionKeepsRace(x: System, d: Draft, plan: Plan, arch: string, actor: Actor, draw: Draw, now: int)
    requires RaceInv(x) && FreshDraw(x.db, draw) && ValidSpec(plan.size)
    ensures var t := ProvisionNew(x.db, d, plan, arch, actor, draw, now).0;
            if draw.ws in t.workspaces && t.workspaces[draw.ws].alloc == draw.alloc
            then RaceInv(x.(db := t, workers := x.workers[draw.ws := Worker(draw.alloc, Load)]))
            else RaceInv(x.(db := t))
  {
    hide RaceInv, State.Take, State.Release;
    var a := Allocation(draw.alloc, d.project, draw.place, plan.size, arch, Reserved);
    if Best(x.db.nodes, Query(arch, plan.size, false), draw.place) {
      var t := x.db.Take(draw.place, a);
      TakeEffect(x.db, draw.place, a);
      var w := NewWorkspace(d, plan, t.nodes[draw.place].arch, actor.id, draw.place, draw.alloc, Provisioning, now);
      ReleaseEffect(t, draw.alloc);
      TakeAndGiveBack(x, draw.place, a, draw);
      TakeAndPut(x, draw.ws, w, draw.place, a, draw);
    }
  }

  lemma RequestKeepsRace(x: System, d: Draft, plan: Plan, arch: string, actor: Actor, draw: Draw, now: int)
    requires RaceInv(x) && FreshDraw(x.db, draw)
    ensures var t := RequestWorkspace(x.db, d, plan, arch, actor, draw, now).0;
            RaceInv(x.(db := t)) && !(draw.ws in t.workspaces && t.workspaces[draw.ws].alloc == draw.alloc)
  {
    hide RaceInv;
    var w := NewWorkspace(d, plan, arch, actor.id, NIL, NIL, Requested, now);
    PutRequested(x, draw.ws, w, Entry(draw.ws, None, "workspace.request", None));
  }

  lemma CreateKeepsRace(x: System, op: Op, now: int)
    requires RaceInv(x) && op.OpCreate? && FreshDraw(x.db, op.draw)
    ensures RaceInv(Spawn(x, op, now))
  {
    hide RaceInv, CheckBudget, Ready, NormalizeArch, ResolveSpec, ProvisionNew, RequestWorkspace, ValidSpec;
    var plan := ResolveSpec(op.draft.planName, op.draft.size);
    if plan.Some? {
      ProvisionKeepsRace(x, op.draft, plan.value, NormalizeArch(op.draft.arch), op.actor, op.draw, now);
      RequestKeepsRace(x, op.draft, plan.value, NormalizeArch(op.draft.arch), op.actor, op.draw, now);
    }
  }

  lemma ApproveKeepsRace(x: System, op: Op, now: int)
    requires RaceInv(x) && op.OpApprove? && FreshDraw(x.db, op.draw) && NoStaleDestroyer(x, op.id)
    ensures RaceInv(Spawn(x, op, now))
  {
    hide RaceInv, CheckBudget, Ready, State.Take, NoStaleDestroyer, Workspace.Spec;
    var id, draw := op.id, op.draw;
    if id in x.db.workspaces && x.db.workspaces[id].status == Requested {
      var was := x.db.workspaces[id];
      SpecNonNegative(was);
      if Best(x.db.nodes, Query(NormalArch(was.arch), was.Spec().size, false), draw.place) {
        var a := Allocation(draw.alloc, was.project, draw.place, was.Spec().size, NormalArch(was.arch), Reserved);
        TakeEffect(x.db, draw.place, a);
        var w := was.(arch := x.db.Take(draw.place, a).nodes[draw.place].arch, node := draw.place, alloc := draw.alloc,
                      status := Provisioning, updatedAt := now);
        TakeAndPut(x, id, w, draw.place, a, draw);
      }
    }
  }
}
