/** Why stopping, starting and rejecting must wait: exactly when they are safe. */
module RaceExact {
  import opened Amounts
  import opened Models
  import opened Store
  import opened App
  import opened AppInv
  import opened AppSteps
  import opened Race
  import opened RaceCalls
  import opened RaceRuns
  import opened RaceLeak
  import R = Review

  /** The status says that the workspace is operational, but its allocation is not active or its instance is not there. */
  predicate Bare(x: System, id: Id) {
    && id in x.db.workspaces && x.db.workspaces[id].status.HealthActive()
    && !(IsActive(x.db, x.db.workspaces[id].alloc) && id in x.guests)
  }

  ghost predicate NeverBare(x: System, id: Id) { forall labels :: PermittedPlay(x, labels) ==> !Bare(Play(x, labels), id) }

  lemma InvIsNotBare(x: System, id: Id)
    requires RaceInv(x)
    ensures !Bare(x, id)
  {
    if id in x.db.workspaces {
      SpotFacts(x, id);
      hide RaceInv;
      SpotHolds(x, id);
    }
  }

  lemma SpotHolds(x: System, id: Id)
    requires id in x.db.workspaces && Safe(At(x, id))
    ensures x.db.workspaces[id].status.HealthActive() ==> IsActive(x.db, x.db.workspaces[id].alloc) && id in x.guests
  {}

  lemma InvIsNeverBare(x: System, id: Id)
    requires RaceInv(x)
    ensures NeverBare(x, id)
  {
    hide RaceInv, PermittedPlay, Play, Bare;
    forall labels | PermittedPlay(x, labels) ensures !Bare(Play(x, labels), id) {
      PlayKeepsRace(x, labels);
      InvIsNotBare(Play(x, labels), id);
    }
  }

  /** An operational status with a worker that is still to find out and will then remove the instance. */
  predicate Doomed(x: System, id: Id) {
    id in x.db.workspaces && x.db.workspaces[id].status.HealthActive() && id in x.workers && Holding(Some(x.workers[id].pc))
  }

  lemma DoomedStep(x: System, id: Id)
    requires Doomed(x, id)
    ensures var y := NextWorker(x, id, Launched, 0);
            Bare(y, id) || (Doomed(y, id) && Left(y.workers[id].pc) < Left(x.workers[id].pc))
  {
    hide State.Release, State.Activate;
    ReleaseLeavesWorkspaces(x.db, x.workers[id].alloc);
    match x.workers[id].pc
    case Recheck(_) =>
    case Activate(_) =>
    case CommitRunning(_) =>
    case DropInstance =>
    case CleanUp =>
    case _ =>
  }

  lemma {:induction false} DoomedGetsBare(x: System, id: Id) returns (labels: seq<Label>)
    requires Doomed(x, id)
    ensures PermittedPlay(x, labels) && Bare(Play(x, labels), id)
    decreases Left(x.workers[id].pc)
  {
    var l := ByWorker(id, Launched, 0);
    var y := NextWorker(x, id, Launched, 0);
    DoomedStep(x, id);
    assert Next(x, l) == y && Permitted(x, l);
    hide NextWorker, Next, Permitted, Bare, Doomed;
    var rest: seq<Label> := [];
    if !Bare(y, id) {
      rest := DoomedGetsBare(y, id);
    }
    labels := [l] + rest;
    PlayOne(x, l, rest);
  }

  lemma NotForever(x: System, id: Id)
    requires Doomed(x, id) || Bare(x, id)
    ensures !NeverBare(x, id)
  {
    hide Bare, Doomed;
    if Doomed(x, id) {
      var labels := DoomedGetsBare(x, id);
    } else {
      assert PermittedPlay(x, []) && Play(x, []) == x;
    }
  }

  // ----- stop and start

  function PowerOutcome(x: World, op: Op, now: int): Outcome
    requires op.OpStop? || op.OpStart?
  {
    if op.OpStop? then Stop(x, op.id, op.actor, now).1 else Start(x, op.id, op.actor, now).1
  }

  lemma PowerTurns(x: System, op: Op, now: int)
    requires (op.OpStop? || op.OpStart?) && PowerOutcome(x.AsWorld(), op, now) == Done
    ensures var y := Next(x, ByCall(op, now));
            && op.id in x.db.workspaces && op.id in x.guests && !x.db.workspaces[op.id].status.Closed()
            && op.id in y.db.workspaces && y.db.workspaces[op.id].status.HealthActive() && y.workers == x.workers
  {
    hide Ready;
  }

  lemma BusyHolds(s: Spot)
    requires Safe(s) && s.inst && AtWork(s.pc) && !s.st.Closed() && (s.reaping ==> s.marked)
    ensures Holding(s.pc)
  {}

  lemma WorkerSpots(x: System, id: Id)
    requires id in x.db.workspaces
    ensures var s := At(x, id);
            && s.st == x.db.workspaces[id].status && s.inst == (id in x.guests) && s.origin == R.Origin(x.db.audit, id)
            && s.pc == if id in x.workers then Some(x.workers[id].pc) else None
  {}

  /** A stop or start that succeeds is safe exactly when the workspace's worker is not at work. */
  lemma PowerIsSafeExactly(x: System, op: Op, now: int)
    requires RaceInv(x) && (op.OpStop? || op.OpStart?) && PowerOutcome(x.AsWorld(), op, now) == Done
    ensures WorkerAtRest(x, op.id) <==> NeverBare(Next(x, ByCall(op, now)), op.id)
  {
    hide RaceInv, PowerOutcome, Do, Next, NeverBare, Safe, At;
    PowerTurns(x, op, now);
    var y := Next(x, ByCall(op, now));
    if WorkerAtRest(x, op.id) {
      StepKeepsRace(x, ByCall(op, now));
      InvIsNeverBare(y, op.id);
    } else {
      SpotFacts(x, op.id);
      WorkerSpots(x, op.id);
      ReapingIsMarked(x, op.id);
      BusyHolds(At(x, op.id));
      NotForever(y, op.id);
    }
  }

  // ----- rejecting a review

  function RejectOutcome(x: World, op: Op, now: int): Outcome
    requires op.OpRejectDestroyProject? || op.OpRejectDestroyPlatform?
  {
    if op.OpRejectDestroyProject? then RejectDestroyProject(x, op.id, op.actor, now).1
    else RejectDestroyPlatform(x, op.id, op.actor, now).1
  }

  lemma RejectTurns(x: System, op: Op, now: int)
    requires (op.OpRejectDestroyProject? || op.OpRejectDestroyPlatform?) && RejectOutcome(x.AsWorld(), op, now) == Done
    ensures var y := Next(x, ByCall(op, now));
            && op.id in x.db.workspaces && x.db.workspaces[op.id].status.ReviewInFlight()
            && op.id in y.db.workspaces && y.db.workspaces[op.id].status == RestoredStatus(x.db, op.id)
            && y.workers == x.workers && y.guests == x.guests
  {
    hide RestoredStatus;
  }

  lemma ReviewedHolds(s: Spot)
    requires Safe(s) && s.st.ReviewInFlight() && s.origin.Some? && !Operational(s.origin) && s.inst && (s.reaping ==> s.marked)
    ensures Holding(s.pc)
  {}

  /**
   A rejection that succeeds is safe exactly when the review was asked for while the workspace was operational, or
   failed is what it restores.
   */
  lemma RejectIsSafeExactly(x: System, op: Op, now: int)
    requires RaceInv(x) && (op.OpRejectDestroyProject? || op.OpRejectDestroyPlatform?)
    requires RejectOutcome(x.AsWorld(), op, now) == Done && R.Origin(x.db.audit, op.id).Some?
    ensures RejectIsHarmless(x.db, op.id) <==> NeverBare(Next(x, ByCall(op, now)), op.id)
  {
    hide RaceInv, RejectOutcome, Do, Next, NeverBare, Safe, At, RestoredStatus;
    RejectTurns(x, op, now);
    var y := Next(x, ByCall(op, now));
    if RejectIsHarmless(x.db, op.id) {
      StepKeepsRace(x, ByCall(op, now));
      InvIsNeverBare(y, op.id);
    } else {
      RestoredIsKnown(x.db, op.id);
      SpotFacts(x, op.id);
      WorkerSpots(x, op.id);
      ReapingIsMarked(x, op.id);
      if op.id in x.guests {
        ReviewedHolds(At(x, op.id));
      }
      NotForever(y, op.id);
    }
  }

  lemma RestoredIsKnown(s: State, id: Id)
    ensures RestoredStatus(s, id).Restorable()
  {}
}
