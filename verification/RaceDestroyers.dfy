/** Every step of a destroy run keeps the invariant of Race. */
module RaceDestroyers {
  import opened Amounts
  import opened Models
  import opened Placement
  import opened Store
  import opened App
  import opened AppInv
  import opened AppSteps
  import opened Moves
  import opened Race
  import opened RaceWorker
  import C = Conservation

  /** How "some destroyer is in one of the stages" changes when one of them goes from one stage to another. */
  predicate Shifted(before: bool, after: bool, from: Stage, to: Stage, stages: set<Stage>) {
    (to in stages ==> after) && (after && to !in stages ==> before) && (before && from !in stages ==> after)
  }

  lemma StagesShift(x: System, y: System, k: nat, to: Stage, stages: set<Stage>)
    requires k in x.destroyers && y.destroyers == x.Advance(k, to).destroyers
    ensures Shifted(AnyIn(x, x.destroyers[k].id, stages), AnyIn(y, x.destroyers[k].id, stages), x.destroyers[k].stage, to, stages)
    ensures forall j :: j != x.destroyers[k].id ==> AnyIn(x, j, stages) == AnyIn(y, j, stages)
  {
    var id := x.destroyers[k].id;
    if to in stages {
      assert y.destroyers[k].id == id && y.destroyers[k].stage in stages;
    }
    if AnyIn(x, id, stages) {
      var i :| i in x.destroyers && x.destroyers[i].id == id && x.destroyers[i].stage in stages;
      if i != k {
        assert y.destroyers[i].id == id;
      }
    }
    forall j | j != id ensures AnyIn(x, j, stages) == AnyIn(y, j, stages) {
      if AnyIn(x, j, stages) {
        var i :| i in x.destroyers && x.destroyers[i].id == j && x.destroyers[i].stage in stages;
        assert y.destroyers[i].id == j;
      }
    }
  }

  /** What else is known of the spot when a destroyer goes on. */
  predicate Shape(s: Spot, t: Spot, from: Stage, to: Stage) {
    && t.pc == s.pc
    && Shifted(s.marked, t.marked, from, to, MARKED)
    && Shifted(s.busy, t.busy, from, to, BUSY)
    && Shifted(s.reaping, t.reaping, from, to, REAPING)
    && Shifted(s.freed, t.freed, from, to, FREED)
    && (from in MARKED ==> s.marked)
    && (from in FREED ==> s.freed)
  }

  /** What the spot may become. */
  predicate Reshaped(s: Spot, t: Spot, from: Stage, to: Stage) {
    && Shape(s, t, from, to)
    && match from
       case MarkDestroying => to == DestroyInstance && t.st == Destroying && t.live == s.live && t.active == s.active && t.inst == s.inst
       case DestroyInstance => to == ReleaseAlloc && t.st == s.st && t.live == s.live && t.active == s.active && !t.inst
       case ReleaseAlloc => to == MarkDestroyed && t.st == s.st && !t.live && !t.active && t.inst == s.inst
       case MarkDestroyed => to == LogDestroy && t.st == Destroyed && t.live == s.live && t.active == s.active && t.inst == s.inst
       case LogDestroy => to == Over && t.st == s.st && t.live == s.live && t.active == s.active && t.inst == s.inst
       case Over => false
  }

  lemma ReshapedIsSafe(s: Spot, t: Spot, from: Stage, to: Stage)
    requires Safe(s) && Reshaped(s, t, from, to)
    ensures Safe(t)
  {}

  function Following(stage: Stage): Stage {
    match stage
    case MarkDestroying => DestroyInstance
    case DestroyInstance => ReleaseAlloc
    case ReleaseAlloc => MarkDestroyed
    case MarkDestroyed => LogDestroy
    case _ => Over
  }

  lemma DestroyerFacts(x: System, k: nat)
    requires RaceInv(x) && k in x.destroyers
    ensures var id := x.destroyers[k].id;
            && id in x.db.workspaces && Safe(At(x, id)) && DestroyerOk(x.db, x.destroyers[k]) && NIL !in x.db.allocs && C.Conserved(x.db)
            && x.db.workspaces[id := x.db.workspaces[id]] == x.db.workspaces
  {
    hide C.Conserved, OneOwner, Safe, At;
  }

  /** A destroyer's step: it writes at most its workspace, its allocation and its instance. */
  ghost predicate Reaped(x: System, y: System, k: nat, to: Stage) {
    && k in x.destroyers
    && (var id := x.destroyers[k].id;
        && id in x.db.workspaces && id in y.db.workspaces
        && y == x.(db := y.db, guests := y.guests).Advance(k, to)
        && NIL !in y.db.allocs
        && y.db.workspaces == x.db.workspaces[id := y.db.workspaces[id]]
        && y.db.workspaces[id].alloc == x.db.workspaces[id].alloc
        && (y.db.workspaces[id].status == Requested ==> x.db.workspaces[id].status == Requested)
        && (forall a :: a != x.db.workspaces[id].alloc ==> SameState(x.db, y.db, a))
        && (forall j :: j != id ==> (j in y.guests <==> j in x.guests))
        && (forall j :: SameOrigin(x.db, y.db, j)))
  }

  lemma DestroyedIsLocal(x: System, y: System, k: nat, to: Stage)
    requires Reaped(x, y, k, to)
    ensures Local(x, y, x.destroyers[k].id)
  {
    hide SameState, SameOrigin, AnyIn;
    forall j | j != x.destroyers[k].id ensures SameDestroyers(x, y, j) {
      forall stages ensures AnyIn(x, j, stages) == AnyIn(y, j, stages) {
        StagesShift(x, y, k, to, stages);
      }
    }
  }

  lemma DestroyedLinks(x: System, y: System, k: nat, to: Stage)
    requires Linked(x) && Reaped(x, y, k, to)
    ensures var id := x.destroyers[k].id;
            && (id in y.workers ==> WorkerOk(y.db, id, y.workers[id]))
            && (forall i :: i in y.destroyers && y.destroyers[i].id == id ==> DestroyerOk(y.db, y.destroyers[i]))
  {
    hide OneOwner, CopyOk, SameState;
    var id := x.destroyers[k].id;
    if id in x.workers {
      assert WorkerOk(x.db, id, x.workers[id]);
    }
    forall i | i in y.destroyers && y.destroyers[i].id == id ensures DestroyerOk(y.db, y.destroyers[i]) {
      assert DestroyerOk(x.db, x.destroyers[i]);
    }
  }

  lemma DestroyerGoes(x: System, y: System, k: nat, to: Stage)
    requires RaceInv(x) && Reaped(x, y, k, to) && C.Conserved(y.db) && Safe(At(y, x.destroyers[k].id))
    ensures RaceInv(y)
  {
    DestroyedIsLocal(x, y, k, to);
    DestroyedLinks(x, y, k, to);
    hide C.Conserved, Safe, At, Linked, AllSafe, Local, Reaped;
    LocalKeepsInv(x, y, x.destroyers[k].id);
  }

  lemma DestroyerSpot(x: System, y: System, k: nat, to: Stage)
    requires Reaped(x, y, k, to)
    ensures var id := x.destroyers[k].id;
            var t, w := At(y, id), y.db.workspaces[id];
            && Shape(At(x, id), t, x.destroyers[k].stage, to)
            && t.st == w.status && t.live == y.db.Live(w.alloc) && t.active == IsActive(y.db, w.alloc) && t.inst == (id in y.guests)
  {
    StagesShift(x, y, k, to, MARKED);
    StagesShift(x, y, k, to, BUSY);
    StagesShift(x, y, k, to, REAPING);
    StagesShift(x, y, k, to, FREED);
    hide Shifted, SameState;
  }

  lemma DestroyerReads(x: System, id: Id)
    requires id in x.db.workspaces
    ensures var s, w := At(x, id), x.db.workspaces[id];
            s.st == w.status && s.live == x.db.Live(w.alloc) && s.active == IsActive(x.db, w.alloc) && s.inst == (id in x.guests)
  {}

  lemma QuietReaped(x: System, y: System, k: nat, to: Stage, w: Workspace)
    requires k in x.destroyers && x.destroyers[k].id in x.db.workspaces && NIL !in x.db.allocs
    requires var id := x.destroyers[k].id;
             && y == x.(db := x.db.(workspaces := x.db.workspaces[id := w], audit := y.db.audit), guests := y.guests).Advance(k, to)
             && w.alloc == x.db.workspaces[id].alloc && (w.status == Requested ==> x.db.workspaces[id].status == Requested)
             && (forall j :: j != id ==> (j in y.guests <==> j in x.guests))
    requires forall j :: SameOrigin(x.db, y.db, j)
    ensures Reaped(x, y, k, to)
  {
    SameLedgerStates(x.db, y.db);
    hide SameState, SameOrigin;
  }

  /** A step of a destroyer that leaves the ledger alone. */
  lemma QuietReap(x: System, y: System, k: nat, to: Stage, w: Workspace)
    requires RaceInv(x) && k in x.destroyers && x.destroyers[k].id in x.db.workspaces
    requires var id := x.destroyers[k].id;
             && y == x.(db := x.db.(workspaces := x.db.workspaces[id := w], audit := y.db.audit), guests := y.guests).Advance(k, to)
             && w.alloc == x.db.workspaces[id].alloc && (w.status == Requested ==> x.db.workspaces[id].status == Requested)
             && (forall j :: j != id ==> (j in y.guests <==> j in x.guests))
    requires forall j :: SameOrigin(x.db, y.db, j)
    requires var id, from := x.destroyers[k].id, x.destroyers[k].stage;
             && from != ReleaseAlloc && from != Over && to == Following(from)
             && w.status == (if from == MarkDestroying then Destroying else if from == MarkDestroyed then Destroyed
                             else x.db.workspaces[id].status)
             && (id in y.guests <==> id in x.guests && from != DestroyInstance)
    ensures RaceInv(y)
  {
    hide C.Conserved, RaceInv, At, Safe, Reaped, Shape, DestroyerOk, SameOrigin;
    var id, from := x.destroyers[k].id, x.destroyers[k].stage;
    DestroyerFacts(x, k);
    QuietReaped(x, y, k, to, w);
    DestroyerSpot(x, y, k, to);
    DestroyerReads(x, id);
    ConservedIgnores(x.db, y.db);
    ReshapedIsSafe(At(x, id), At(y, id), from, to);
    DestroyerGoes(x, y, k, to);
  }

  lemma ReleasedReaped(x: System, y: System, k: nat)
    requires k in x.destroyers && x.destroyers[k].id in x.db.workspaces && NIL !in x.db.allocs
    requires y == x.(db := x.db.Release(x.db.workspaces[x.destroyers[k].id].alloc).0).Advance(k, MarkDestroyed)
    ensures Reaped(x, y, k, MarkDestroyed)
    ensures var a := x.db.workspaces[x.destroyers[k].id].alloc; !y.db.Live(a) && !IsActive(y.db, a)
  {
    ReleaseStates(x.db, x.db.workspaces[x.destroyers[k].id].alloc);
    SameLog(x.db, y.db);
    hide State.Release, SameState, SameOrigin;
  }

  lemma DestroyerReleases(x: System, y: System, k: nat)
    requires RaceInv(x) && k in x.destroyers && x.destroyers[k].id in x.db.workspaces && x.destroyers[k].stage == ReleaseAlloc
    requires y == x.(db := x.db.Release(x.db.workspaces[x.destroyers[k].id].alloc).0).Advance(k, MarkDestroyed)
    ensures RaceInv(y)
  {
    hide C.Conserved, RaceInv, At, Safe, Reaped, Shape, DestroyerOk, State.Release;
    var id := x.destroyers[k].id;
    DestroyerFacts(x, k);
    C.ReleaseConserves(x.db, x.db.workspaces[id].alloc);
    ReleasedReaped(x, y, k);
    ReleaseEffect(x.db, x.db.workspaces[id].alloc);
    DestroyerSpot(x, y, k, MarkDestroyed);
    DestroyerReads(x, id);
    ReshapedIsSafe(At(x, id), At(y, id), ReleaseAlloc, MarkDestroyed);
    DestroyerGoes(x, y, k, MarkDestroyed);
  }

  lemma DestroyerKeepsInv(x: System, k: nat, now: int)
    requires RaceInv(x) && k in x.destroyers
    ensures RaceInv(NextDestroyer(x, k, now))
  {
    hide RaceInv, State.Release, Safe, At;
    DestroyerFacts(x, k);
    ReleaseNothing(x.db);
    var id, me, y := x.destroyers[k].id, x.destroyers[k], NextDestroyer(x, k, now);
    match me.stage
    case MarkDestroying => QuietReap(x, y, k, DestroyInstance, me.w.(status := Destroying, updatedAt := now));
    case DestroyInstance => QuietReap(x, y, k, ReleaseAlloc, x.db.workspaces[id]);
    case ReleaseAlloc => DestroyerReleases(x, y, k);
    case MarkDestroyed => QuietReap(x, y, k, LogDestroy, me.w.(status := Destroyed, updatedAt := now));
    case LogDestroy =>
      LogKeepsOrigins(x.db, y.db, Entry(id, None, "workspace.destroy", None));
      QuietReap(x, y, k, Over, x.db.workspaces[id]);
    case Over =>
  }
}
