/** Runs of the race that show why its conditions are there. */
module RaceWitnesses {
  import opened Amounts
  import opened Models
  import opened Placement
  import opened Store
  import opened App
  import opened AppInv
  import opened AppSteps
  import opened Race
  import opened RaceCalls
  import opened RaceRuns
  import opened RaceLeak
  import opened Witnesses
  import C = Conservation
  import R = Review

  const DRAW := Draw(11, 12, 1)
  const APPROVE := OpApprove(7, ADMIN, DRAW)
  const HELD := Allocation(12, 9, 1, BIG, "amd64", Reserved)

  /** Workspace 7 waits for its approval. */
  function Waiting(): System { System(WithNode().PutWorkspace(7, Ws(Requested, NIL)), map[], map[], map[]) }

  lemma WaitingIsFine()
    ensures RaceInv(Waiting())
  {
    NodeIsThere();
    InvConserves(WithNode());
    hide Inv;
    ConservedIgnores(WithNode(), Waiting().db);
    hide C.Conserved;
  }

  /** Approved: its worker has not begun. */
  function Provisioned(): State {
    WithNode().(nodes := map[1 := NODE.(used := BIG)], allocs := map[12 := HELD], workspaces := map[7 := Ws(Provisioning, 12)])
  }

  lemma OneNodeIsBest()
    ensures Best(WithNode().nodes, Query("amd64", BIG, false), 1)
  {}

  lemma ApprovalSucceeds()
    ensures FreshDraw(Waiting().db, DRAW) && ApproveWorkspace(Waiting().db, 7, ADMIN, DRAW, 0) == (Provisioned(), Done)
  {
    var db := Waiting().db;
    OneNodeIsBest();
    hide ProjectUsed, Best;
    assert db.workspaces[7].Spec().size == BIG && NormalArch("amd64") == "amd64";
    assert db.Take(1, HELD).nodes == Provisioned().nodes && db.Take(1, HELD).allocs == Provisioned().allocs;
    assert db.Take(1, HELD).PutWorkspace(7, Ws(Provisioning, 12)) == Provisioned();
  }

  /** A destroy call has read the waiting workspace: its approval can leak. */
  lemma LeakWitness()
    ensures var x := Next(Waiting(), ByDestroy(0, 7));
            && RaceInv(x) && FreshDraw(x.db, DRAW) && ApproveWorkspace(x.db, 7, ADMIN, DRAW, 0).1 == Done
            && !NoStaleDestroyer(x, 7) && !NeverLeaks(Next(x, BySpawn(APPROVE, 0)), 7)
  {
    WaitingIsFine();
    ApprovalSucceeds();
    hide RaceInv, ApproveWorkspace, FreshDraw, NeverLeaks;
    BeginKeepsRace(Waiting(), 0, 7);
    var x := Next(Waiting(), ByDestroy(0, 7));
    assert x.destroyers[0].stage == MarkDestroying;
    ApprovalIsSafeExactly(x, APPROVE, 0);
  }

  // ----- starting and rejecting too early

  function AtPc(pc: Pc, guests: map<Id, bool>): System { System(Provisioned(), guests, map[7 := Worker(12, pc)], map[]) }

  lemma ApprovedIsFine()
    ensures Next(Waiting(), BySpawn(APPROVE, 0)) == AtPc(Load, map[]) && RaceInv(AtPc(Load, map[]))
  {
    WaitingIsFine();
    ApprovalSucceeds();
    hide RaceInv, ApproveWorkspace, FreshDraw;
    ApproveKeepsRace(Waiting(), APPROVE, 0);
  }

  lemma LaunchedIsFine()
    ensures var x := AtPc(Load, map[]);
            var y := Next(Next(x, ByWorker(7, Launched, 0)), ByWorker(7, Launched, 0));
            y == AtPc(Recheck(true), map[7 := true]) && RaceInv(y)
  {
    ApprovedIsFine();
    Loads();
    Launches();
    hide RaceInv, Next;
    StepKeepsRace(AtPc(Load, map[]), ByWorker(7, Launched, 0));
    StepKeepsRace(AtPc(Launch, map[]), ByWorker(7, Launched, 0));
  }

  lemma Loads()
    ensures Next(AtPc(Load, map[]), ByWorker(7, Launched, 0)) == AtPc(Launch, map[])
  {
    assert AtPc(Load, map[]).Goto(7, Launch) == AtPc(Launch, map[]);
  }

  lemma Launches()
    ensures Next(AtPc(Launch, map[]), ByWorker(7, Launched, 0)) == AtPc(Recheck(true), map[7 := true])
  {
    assert AtPc(Launch, map[7 := true]).Goto(7, Recheck(true)) == AtPc(Recheck(true), map[7 := true]);
  }

  /** Running without an active allocation. */
  predicate RunsOnNothing(x: System, id: Id) {
    id in x.db.workspaces && x.db.workspaces[id].status == Running && !IsActive(x.db, x.db.workspaces[id].alloc)
  }

  /** Starting a workspace that has been launched but is still provisioning makes it run before its allocation is active. */
  lemma EarlyStartWitness()
    ensures var x := AtPc(Recheck(true), map[7 := true]);
            RaceInv(x) && !WorkerAtRest(x, 7) && RunsOnNothing(Next(x, ByCall(OpStart(7, OWNER), 0)), 7)
  {
    hide RaceInv, Next, RunsOnNothing;
    LaunchedIsFine();
    StartsOnNothing();
  }

  lemma StartsOnNothing()
    ensures RunsOnNothing(Next(AtPc(Recheck(true), map[7 := true]), ByCall(OpStart(7, OWNER), 0)), 7)
  {
    var w := World(Provisioned(), map[7 := true]);
    assert Ready(w.db, OWNER, 9, RANK_DEVELOPER) == Done;
    hide Ready;
    assert Start(w, 7, OWNER, 0).1 == Done;
  }

  /** So does rejecting a review that was asked for while the workspace was still provisioning. */
  lemma EarlyRejectWitness()
    ensures var x := Next(AtPc(Load, map[]), ByCall(ASK, 0));
            RaceInv(x) && !RejectIsHarmless(x.db, 7) && RunsOnNothing(Next(x, ByCall(OpRejectDestroyProject(7, OWNER), 0)), 7)
  {
    ReviewedIsFine();
    AskedWhileProvisioning();
    var x := Next(AtPc(Load, map[]), ByCall(ASK, 0));
    hide RaceInv, Next;
    R.RestoredFromLog(x.db, 7);
    RejectingRestores(x);
    hide RestoredStatus, R.Origin, R.Newer, R.HasRequest;
  }

  lemma ReviewedIsFine()
    ensures RaceInv(Next(AtPc(Load, map[]), ByCall(ASK, 0)))
  {
    hide RaceInv, Do;
    ApprovedIsFine();
    assert Permitted(AtPc(Load, map[]), ByCall(ASK, 0));
    hide Next, Permitted;
    StepKeepsRace(AtPc(Load, map[]), ByCall(ASK, 0));
  }

  lemma AskedWhileProvisioning()
    ensures var x := Next(AtPc(Load, map[]), ByCall(ASK, 0));
            && 7 in x.db.workspaces && x.db.workspaces[7].status == DestroyRequested && x.db.workspaces[7].alloc == 12
            && x.db.allocs == Provisioned().allocs && R.Origin(x.db.audit, 7) == Some(Provisioning)
  {
    hide ExecuteDestroy;
  }

  lemma RejectingRestores(x: System)
    requires 7 in x.db.workspaces && x.db.workspaces[7].status == DestroyRequested
    ensures var y := Next(x, ByCall(OpRejectDestroyProject(7, OWNER), 0));
            && 7 in y.db.workspaces && y.db.workspaces[7].status == RestoredStatus(x.db, 7)
            && y.db.workspaces[7].alloc == x.db.workspaces[7].alloc && y.db.allocs == x.db.allocs
  {
    hide RestoredStatus;
  }
}
