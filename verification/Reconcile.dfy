/** Reconciling: what one pass releases, and that it leaves nothing for a second one. */
module Reconcile {
  import opened Amounts
  import opened Models
  import opened Store
  import opened App
  import opened AppInv
  import opened AppSteps
  import C = Conservation

  /** The first loop, over the allocations in any order. */
  ghost function ReleaseEach(s: State, order: seq<Id>): State {
    if order == [] then s else ReleaseOrphan(ReleaseEach(s, order[..|order| - 1]), order[|order| - 1])
  }

  /** The second loop, over the workspaces in any order. */
  function FailStuckEach(x: World, order: seq<Id>, now: int): World {
    if order == [] then x else FailStuck(FailStuckEach(x, order[..|order| - 1], now), order[|order| - 1], now)
  }

  ghost predicate Covers(order: seq<Id>, ids: set<Id>) { forall id :: id in order <==> id in ids }

  /** One pass of both loops. */
  ghost predicate Reconciles(x: World, y: World, now: int) {
    exists allocs: seq<Id>, workspaces: seq<Id> ::
      Covers(allocs, x.db.allocs.Keys) && Covers(workspaces, x.db.workspaces.Keys)
      && y == FailStuckEach(x.(db := ReleaseEach(x.db, allocs)), workspaces, now)
  }

  ghost predicate StuckOwner(s: State, id: Id, a: Id, now: int) { Owns(s, id, a) && Stuck(s.workspaces[id], now) }

  /** What a pass is to release: nobody needs the allocation, or its owner has been provisioning for too long. */
  ghost predicate Loose(s: State, a: Id, now: int) { Orphan(s, a) || exists id :: StuckOwner(s, id, a, now) }

  lemma OrphanReadsWorkspaces(s: State, t: State, a: Id)
    requires t.workspaces == s.workspaces
    ensures Orphan(t, a) == Orphan(s, a)
  {
    if Orphan(s, a) {
      forall id | Owns(t, id, a) ensures t.workspaces[id].status in {Destroyed, Failed} {
        assert Owns(s, id, a);
      }
    }
    if Orphan(t, a) {
      forall id | Owns(s, id, a) ensures s.workspaces[id].status in {Destroyed, Failed} {
        assert Owns(t, id, a);
      }
    }
  }

  lemma ReleaseLives(s: State, a: Id)
    ensures var t := s.Release(a).0;
            t.workspaces == s.workspaces && t.allocs.Keys == s.allocs.Keys && forall b :: t.Live(b) <==> s.Live(b) && b != a
  {
    ReleaseEffect(s, a);
    hide State.Release;
  }

  /** All that reconciling asks of the store: a balanced ledger without the nil allocation. */
  ghost predicate Sound(s: State) { C.Conserved(s) && NIL !in s.allocs }

  lemma ReleaseKeepsSound(s: State, a: Id)
    requires Sound(s)
    ensures Sound(s.Release(a).0)
  {
    C.ReleaseConserves(s, a);
    ReleaseEffect(s, a);
    hide C.Conserved, State.Release;
  }

  lemma PutKeepsSound(s: State, id: Id, w: Workspace)
    requires Sound(s)
    ensures Sound(s.PutWorkspace(id, w))
  {
    ConservedIgnores(s, s.PutWorkspace(id, w));
    hide C.Conserved;
  }

  lemma {:induction false} ReleaseEachExactly(s: State, order: seq<Id>)
    requires Sound(s)
    ensures var t := ReleaseEach(s, order);
            && Sound(t) && t.workspaces == s.workspaces && t.allocs.Keys == s.allocs.Keys
            && forall a :: t.Live(a) <==> s.Live(a) && !(a in order && Orphan(s, a))
  {
    hide Sound, State.Release, Orphan;
    if order != [] {
      var k := |order| - 1;
      ReleaseEachExactly(s, order[..k]);
      var t := ReleaseEach(s, order[..k]);
      ReleaseKeepsSound(t, order[k]);
      ReleaseLives(t, order[k]);
      OrphanReadsWorkspaces(s, t, order[k]);
      assert order == order[..k] + [order[k]];
      hide State.Live;
    }
  }

  lemma FailStuckLives(x: World, id: Id, now: int)
    requires Sound(x.db) && id in x.db.workspaces && Stuck(x.db.workspaces[id], now)
    ensures var w, y := x.db.workspaces[id], FailStuck(x, id, now);
            && Sound(y.db)
            && y.db.workspaces == x.db.workspaces[id := w.(status := Failed, updatedAt := now)]
            && forall b :: y.db.Live(b) <==> x.db.Live(b) && b != w.alloc
  {
    var w := x.db.workspaces[id];
    ReleaseNothing(x.db);
    ReleaseLives(x.db, w.alloc);
    ReleaseKeepsSound(x.db, w.alloc);
    hide C.Conserved, State.Release;
    PutKeepsSound(x.db.Release(w.alloc).0, id, w.(status := Failed, updatedAt := now));
  }

  function Failing(w: Workspace, now: int): Workspace { if Stuck(w, now) then w.(status := Failed, updatedAt := now) else w }

  lemma {:induction false} FailStuckEachExactly(x: World, order: seq<Id>, now: int)
    requires Sound(x.db)
    ensures var y := FailStuckEach(x, order, now);
            && Sound(y.db) && y.db.workspaces.Keys == x.db.workspaces.Keys
            && (forall id :: id in x.db.workspaces ==>
                  y.db.workspaces[id] == if id in order then Failing(x.db.workspaces[id], now) else x.db.workspaces[id])
            && (forall a :: y.db.Live(a) <==> x.db.Live(a) && !exists id :: id in order && StuckOwner(x.db, id, a, now))
  {
    hide Sound, FailStuck, State.Live;
    if order != [] {
      var k := |order| - 1;
      FailStuckEachExactly(x, order[..k], now);
      var y, id := FailStuckEach(x, order[..k], now), order[k];
      assert order == order[..k] + [id];
      if id in y.db.workspaces && Stuck(y.db.workspaces[id], now) {
        FailStuckLives(y, id, now);
        assert StuckOwner(x.db, id, x.db.workspaces[id].alloc, now);
      } else {
        assert FailStuck(y, id, now) == y by { NotStuck(y, id, now); }
      }
    }
  }

  lemma NotStuck(y: World, id: Id, now: int)
    requires !(id in y.db.workspaces && Stuck(y.db.workspaces[id], now))
    ensures FailStuck(y, id, now) == y
  {}

  /** A pass releases exactly the loose live allocations, fails exactly the stuck workspaces, and keeps the balance. */
  lemma ReconcileReleasesExactly(x: World, y: World, now: int)
    requires C.Conserved(x.db) && NIL !in x.db.allocs && Reconciles(x, y, now)
    ensures C.Conserved(y.db) && NIL !in y.db.allocs
    ensures forall a :: y.db.Live(a) <==> x.db.Live(a) && !Loose(x.db, a, now)
    ensures y.db.workspaces == map id | id in x.db.workspaces :: Failing(x.db.workspaces[id], now)
  {
    hide C.Conserved, FailStuck, ReleaseOrphan, State.Live, Orphan;
    var allocs: seq<Id>, workspaces: seq<Id> :|
      Covers(allocs, x.db.allocs.Keys) && Covers(workspaces, x.db.workspaces.Keys)
      && y == FailStuckEach(x.(db := ReleaseEach(x.db, allocs)), workspaces, now);
    ReleaseEachExactly(x.db, allocs);
    FailStuckEachExactly(x.(db := ReleaseEach(x.db, allocs)), workspaces, now);
    forall a ensures y.db.Live(a) <==> x.db.Live(a) && !Loose(x.db, a, now) {
      LiveAreAllocs(x.db, a);
      StuckReadsWorkspaces(x.db, ReleaseEach(x.db, allocs), a, now);
    }
  }

  lemma LiveAreAllocs(s: State, a: Id)
    ensures s.Live(a) ==> a in s.allocs
  {}

  lemma StuckReadsWorkspaces(s: State, t: State, a: Id, now: int)
    requires t.workspaces == s.workspaces
    ensures forall id :: StuckOwner(t, id, a, now) <==> StuckOwner(s, id, a, now)
  {}

  lemma NeededBy(s: State, a: Id) returns (id: Id)
    requires !Orphan(s, a)
    ensures Owns(s, id, a) && s.workspaces[id].status !in {Destroyed, Failed}
  {
    id :| Owns(s, id, a) && s.workspaces[id].status !in {Destroyed, Failed};
  }

  lemma FailingIsNotStuck(w: Workspace, now: int)
    ensures !Stuck(Failing(w, now), now)
  {}

  /** Afterwards every live allocation is owned by a workspace that is not destroyed, failed or stuck. */
  lemma AfterwardsAllOwned(x: World, y: World, now: int, a: Id)
    requires C.Conserved(x.db) && NIL !in x.db.allocs && Reconciles(x, y, now) && y.db.Live(a)
    ensures exists id :: Owns(y.db, id, a) && y.db.workspaces[id].status !in {Destroyed, Failed} && !Stuck(y.db.workspaces[id], now)
  {
    hide C.Conserved, Reconciles, Orphan, Stuck, State.Live;
    ReconcileReleasesExactly(x, y, now);
    var id := NeededBy(x.db, a);
    assert !StuckOwner(x.db, id, a, now);
    assert Owns(y.db, id, a);
  }

  lemma NothingLooseAfter(x: World, y: World, now: int, a: Id)
    requires C.Conserved(x.db) && NIL !in x.db.allocs && Reconciles(x, y, now) && y.db.Live(a)
    ensures !Loose(y.db, a, now)
  {
    hide C.Conserved, Reconciles, Stuck, Failing, State.Live;
    AfterwardsAllOwned(x, y, now, a);
    ReconcileReleasesExactly(x, y, now);
    forall id ensures !StuckOwner(y.db, id, a, now) {
      if id in x.db.workspaces {
        FailingIsNotStuck(x.db.workspaces[id], now);
      }
    }
  }

  lemma {:induction false} OrphanIdle(s: State, order: seq<Id>)
    requires forall a :: a in order && Orphan(s, a) ==> !s.Live(a)
    ensures ReleaseEach(s, order) == s
  {
    hide Orphan;
    if order != [] {
      var k := |order| - 1;
      assert order == order[..k] + [order[k]];
      OrphanIdle(s, order[..k]);
      assert order[k] in order;
    }
  }

  lemma {:induction false} StuckIdle(x: World, order: seq<Id>, now: int)
    requires forall id :: id in x.db.workspaces ==> !Stuck(x.db.workspaces[id], now)
    ensures FailStuckEach(x, order, now) == x
  {
    if order != [] {
      StuckIdle(x, order[..|order| - 1], now);
      NotStuck(x, order[|order| - 1], now);
    }
  }

  /** A second pass at once does nothing at all. */
  lemma SecondPassIsIdle(x: World, y: World, z: World, now: int)
    requires C.Conserved(x.db) && NIL !in x.db.allocs && Reconciles(x, y, now) && Reconciles(y, z, now)
    ensures z == y
  {
    hide C.Conserved, Orphan, FailStuck, ReleaseOrphan;
    ReconcileReleasesExactly(x, y, now);
    forall a | Orphan(y.db, a) ensures !y.db.Live(a) {
      if y.db.Live(a) {
        NothingLooseAfter(x, y, now, a);
      }
    }
    var allocs: seq<Id>, workspaces: seq<Id> :|
      Covers(allocs, y.db.allocs.Keys) && Covers(workspaces, y.db.workspaces.Keys)
      && z == FailStuckEach(y.(db := ReleaseEach(y.db, allocs)), workspaces, now);
    hide Reconciles;
    OrphanIdle(y.db, allocs);
    forall id | id in y.db.workspaces ensures !Stuck(y.db.workspaces[id], now) {
      FailingIsNotStuck(x.db.workspaces[id], now);
    }
    StuckIdle(y, workspaces, now);
  }

  lemma {:induction false} ReleaseEachKeepsInv(s: State, order: seq<Id>)
    requires Inv(s)
    ensures Inv(ReleaseEach(s, order))
  {
    hide Inv, State.Release, Orphan;
    if order != [] {
      ReleaseEachKeepsInv(s, order[..|order| - 1]);
      ReleaseKeepsInv(ReleaseEach(s, order[..|order| - 1]), order[|order| - 1]);
    }
  }

  lemma {:induction false} FailStuckEachKeepsInv(x: World, order: seq<Id>, now: int)
    requires Inv(x.db)
    ensures Inv(FailStuckEach(x, order, now).db)
  {
    hide Inv, FailStuck;
    if order != [] {
      FailStuckEachKeepsInv(x, order[..|order| - 1], now);
      FailStuckKeepsInv(FailStuckEach(x, order[..|order| - 1], now), order[|order| - 1], now);
    }
  }

  /** Where sizes and owners agreed before a pass, they agree after it. */
  lemma ReconcileKeepsInv(x: World, y: World, now: int)
    requires Inv(x.db) && Reconciles(x, y, now)
    ensures Inv(y.db)
  {
    hide Inv, ReleaseEach, FailStuckEach, Covers;
    var allocs: seq<Id>, workspaces: seq<Id> :|
      Covers(allocs, x.db.allocs.Keys) && Covers(workspaces, x.db.workspaces.Keys)
      && y == FailStuckEach(x.(db := ReleaseEach(x.db, allocs)), workspaces, now);
    ReleaseEachKeepsInv(x.db, allocs);
    FailStuckEachKeepsInv(x.(db := ReleaseEach(x.db, allocs)), workspaces, now);
  }

  /** In particular a destroyed or failed workspace holds nothing afterwards, whatever it held before. */
  lemma FailedOwnerIsReleased(x: World, y: World, now: int, id: Id)
    requires C.Conserved(x.db) && NIL !in x.db.allocs && OneOwner(x.db.workspaces) && Reconciles(x, y, now)
    requires id in x.db.workspaces && x.db.workspaces[id].status in {Destroyed, Failed}
    ensures !y.db.Live(x.db.workspaces[id].alloc)
  {
    hide C.Conserved, Reconciles;
    ReconcileReleasesExactly(x, y, now);
    var a := x.db.workspaces[id].alloc;
    LiveAreAllocs(x.db, a);
    if x.db.Live(a) {
      assert forall j :: Owns(x.db, j, a) ==> j == id;
      assert Orphan(x.db, a);
    }
  }

  // ----- the whole world after a pass

  /** Allocations are at most released, nodes change at most what they count, everything else in the store stays. */
  ghost predicate Settles(s: State, t: State) {
    && t.allocs.Keys == s.allocs.Keys && t.nodes.Keys == s.nodes.Keys
    && (forall a :: a in s.allocs ==> t.allocs[a] == s.allocs[a] || t.allocs[a] == s.allocs[a].(state := Released))
    && (forall n :: n in s.nodes ==> t.nodes[n] == s.nodes[n].(used := t.nodes[n].used))
    && t.byName == s.byName && t.audit == s.audit && t.projects == s.projects
  }

  lemma SettlesChain(s: State, t: State, u: State)
    requires Settles(s, t) && Settles(t, u)
    ensures Settles(s, u)
  {}

  lemma SettlesItself(s: State)
    ensures Settles(s, s)
  {}

  lemma ReleaseSettles(s: State, a: Id)
    ensures Settles(s, s.Release(a).0)
  {
    ReleaseEffect(s, a);
    ReleaseNodes(s, a);
    hide State.Release;
  }

  lemma ReleaseNodes(s: State, a: Id)
    ensures var t := s.Release(a).0;
            t.nodes.Keys == s.nodes.Keys && forall n :: n in s.nodes ==> t.nodes[n] == s.nodes[n].(used := t.nodes[n].used)
  {
    hide Amount.Minus, Amount.Floored;
  }

  lemma FailStuckSettles(x: World, id: Id, now: int)
    ensures Settles(x.db, FailStuck(x, id, now).db)
  {
    SettlesItself(x.db);
    if id in x.db.workspaces {
      ReleaseSettles(x.db, x.db.workspaces[id].alloc);
    }
    hide State.Release, Stuck;
  }

  lemma {:induction false} ReleaseEachSettles(s: State, order: seq<Id>)
    ensures Settles(s, ReleaseEach(s, order))
  {
    hide Settles, State.Release, Orphan;
    SettlesItself(s);
    if order != [] {
      var t, a := ReleaseEach(s, order[..|order| - 1]), order[|order| - 1];
      ReleaseEachSettles(s, order[..|order| - 1]);
      SettlesItself(t);
      ReleaseSettles(t, a);
      SettlesChain(s, t, ReleaseOrphan(t, a));
    }
  }

  lemma {:induction false} FailStuckEachSettles(x: World, order: seq<Id>, now: int)
    ensures Settles(x.db, FailStuckEach(x, order, now).db)
  {
    hide Settles, FailStuck;
    SettlesItself(x.db);
    if order != [] {
      var y, id := FailStuckEach(x, order[..|order| - 1], now), order[|order| - 1];
      FailStuckEachSettles(x, order[..|order| - 1], now);
      FailStuckSettles(y, id, now);
      SettlesChain(x.db, y.db, FailStuck(y, id, now).db);
    }
  }

  /** A workspace has been provisioning for at least twenty minutes. */
  predicate TooLong(w: Workspace, now: int) { w.status == Provisioning && now - w.updatedAt >= 1200 }

  /** Instances after the workspaces in order have been looked at. */
  ghost predicate InstancesLeft(x: World, y: World, order: seq<Id>, now: int) {
    && (forall id :: id in y.guests <==> id in x.guests && !(id in order && id in x.db.workspaces && TooLong(x.db.workspaces[id], now)))
    && (forall id :: id in y.guests ==> y.guests[id] == x.guests[id])
  }

  lemma {:induction false} FailStuckEachInstances(x: World, order: seq<Id>, now: int)
    requires Sound(x.db)
    ensures InstancesLeft(x, FailStuckEach(x, order, now), order, now)
  {
    hide Sound, State.Release, State.Live;
    if order != [] {
      var k := |order| - 1;
      FailStuckEachInstances(x, order[..k], now);
      FailStuckEachExactly(x, order[..k], now);
      assert order == order[..k] + [order[k]];
    }
  }

  ghost predicate NeededIn(s: State, a: Id, now: int) {
    && (exists id :: id in s.workspaces && s.workspaces[id].alloc == a && s.workspaces[id].status !in {Destroyed, Failed})
    && !(exists id :: id in s.workspaces && s.workspaces[id].alloc == a && TooLong(s.workspaces[id], now))
  }

  lemma NeededIsNotLoose(s: State, a: Id, now: int)
    ensures NeededIn(s, a, now) <==> !Loose(s, a, now)
  {
    if !Orphan(s, a) {
      var id := NeededBy(s, a);
    }
    if id :| id in s.workspaces && s.workspaces[id].alloc == a && TooLong(s.workspaces[id], now) {
      assert StuckOwner(s, id, a, now);
    }
    if id :| id in s.workspaces && s.workspaces[id].alloc == a && s.workspaces[id].status !in {Destroyed, Failed} {
      assert Owns(s, id, a);
    }
  }

  /** The stuck workspaces have failed. */
  function WorkspacesAfter(s: State, now: int): map<Id, Workspace> {
    map id | id in s.workspaces :: if TooLong(s.workspaces[id], now) then s.workspaces[id].(status := Failed, updatedAt := now) else s.workspaces[id]
  }

  /** What no workspace needs any more is released. */
  ghost function AllocsAfter(s: State, now: int): map<Id, Allocation> {
    map a | a in s.allocs :: if NeededIn(s, a, now) then s.allocs[a] else s.allocs[a].(state := Released)
  }

  lemma PassSettles(x: World, y: World, now: int)
    requires Sound(x.db) && Reconciles(x, y, now)
    ensures Settles(x.db, y.db)
    ensures forall id :: id in y.guests <==> id in x.guests && !(id in x.db.workspaces && TooLong(x.db.workspaces[id], now))
    ensures forall id :: id in y.guests ==> y.guests[id] == x.guests[id]
  {
    var allocs: seq<Id>, workspaces: seq<Id> :|
      Covers(allocs, x.db.allocs.Keys) && Covers(workspaces, x.db.workspaces.Keys)
      && y == FailStuckEach(x.(db := ReleaseEach(x.db, allocs)), workspaces, now);
    var z := x.(db := ReleaseEach(x.db, allocs));
    hide Sound, FailStuckEach, ReleaseEach, Reconciles, Settles, TooLong;
    ReleaseEachExactly(x.db, allocs);
    ReleaseEachSettles(x.db, allocs);
    FailStuckEachSettles(z, workspaces, now);
    SettlesChain(x.db, z.db, y.db);
    FailStuckEachInstances(z, workspaces, now);
  }

  lemma AllocsSettle(s: State, t: State, now: int)
    requires Settles(s, t) && forall a :: t.Live(a) <==> s.Live(a) && !Loose(s, a, now)
    ensures t.allocs == AllocsAfter(s, now)
  {
    forall a | a in s.allocs ensures t.allocs[a] == AllocsAfter(s, now)[a] {
      NeededIsNotLoose(s, a, now);
      SettledByLife(s, t, a);
      hide NeededIn, Loose;
    }
    hide NeededIn, Loose;
  }

  /**
   Everything a pass leaves behind: exactly the stuck workspaces have failed and lost their instances, exactly the
   live allocations that no workspace needs any more are released, and the nodes count what is left.
   */
  lemma ReconcileOutcome(x: World, y: World, now: int)
    requires C.Conserved(x.db) && NIL !in x.db.allocs && Reconciles(x, y, now)
    ensures y.db.workspaces == WorkspacesAfter(x.db, now) && y.db.allocs == AllocsAfter(x.db, now)
    ensures Settles(x.db, y.db) && forall n :: n in y.db.nodes ==> y.db.nodes[n].used == C.Load(y.db.allocs, n)
    ensures forall id :: id in y.guests <==> id in x.guests && !(id in x.db.workspaces && TooLong(x.db.workspaces[id], now))
    ensures forall id :: id in y.guests ==> y.guests[id] == x.guests[id]
  {
    hide C.Conserved, Loose, Reconciles, Settles, AllocsAfter, State.Live;
    ReconcileReleasesExactly(x, y, now);
    BalancedMeans(y.db);
    PassSettles(x, y, now);
    AllocsSettle(x.db, y.db, now);
  }

  lemma BalancedMeans(s: State)
    requires C.Conserved(s)
    ensures forall n :: n in s.nodes ==> s.nodes[n].used == C.Load(s.allocs, n)
  {
    hide C.Load;
  }

  lemma SettledByLife(s: State, t: State, a: Id)
    requires Settles(s, t) && a in s.allocs
    ensures t.allocs[a] == if t.Live(a) || !s.Live(a) then s.allocs[a] else s.allocs[a].(state := Released)
    ensures !s.Live(a) ==> s.allocs[a].(state := Released) == s.allocs[a]
  {}
}
