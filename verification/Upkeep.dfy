/** Destroy reviews, power, idling and health: what each call accepts, and what it leaves behind. */
module Upkeep {
  import opened Amounts
  import opened Models
  import opened Store
  import opened App
  import opened AppInv
  import opened Calls
  import Outcomes
  import C = Conservation

  /** Only this workspace's status, and the times that go with it, are written; at most one entry is logged. */
  predicate StatusSet(x: World, y: World, id: Id, st: Status) {
    && id in x.db.workspaces && id in y.db.workspaces && y.db.workspaces[id].status == st
    && (var w := y.db.workspaces[id];
        w == x.db.workspaces[id].(status := st, updatedAt := w.updatedAt, lastActivityAt := w.lastActivityAt))
    && y.db == x.db.(workspaces := x.db.workspaces[id := y.db.workspaces[id]], audit := y.db.audit)
  }

  // ----- reviews

  /** Asking for destruction, for everybody but platform admins. */
  predicate MayAskToDestroy(x: World, id: Id, actor: Actor) {
    && id in x.db.workspaces && AtLeast(actor, 20) && OpenTo(x.db.workspaces[id], actor)
    && x.db.workspaces[id].status !in {DestroyRequested, DestroyPendingPlatform, Destroying, Destroyed}
    && (x.db.workspaces[id].status in {Stopped, Suspended} ==> id in x.guests)
  }

  /**
   The request goes to the project, or past it when an approver makes it; the instance of a stopped or suspended
   workspace is started for the review, and the log keeps the status it came from.
   */
  lemma AskingExactly(x: World, id: Id, actor: Actor, now: int)
    requires !actor.platformAdmin
    ensures var (y, r) := RequestDestroy(x, id, actor, now);
            && Do(x, OpRequestDestroy(id, actor), now) == y
            && (r == Done <==> MayAskToDestroy(x, id, actor)) && (r != Done ==> y == x)
            && (r == Done ==>
                  && StatusSet(x, y, id, if AtLeast(actor, 30) then DestroyPendingPlatform else DestroyRequested)
                  && y.guests == (if x.db.workspaces[id].status in {Stopped, Suspended} then x.guests[id := true] else x.guests)
                  && |y.db.audit| > |x.db.audit| && y.db.audit[..|x.db.audit|] == x.db.audit
                  && y.db.audit[|x.db.audit|] == Entry(id, None, "workspace.destroy.request", Some(x.db.workspaces[id].status)))
  {
    hide ExecuteDestroy, MayTouch, OpenTo;
    MemberExactly(actor, 20);
    MemberExactly(actor, 30);
    if id in x.db.workspaces {
      PrivateExactly(x.db.workspaces[id], actor);
    }
    hide Actor.Member, Actor.CanApprove, AtLeast;
  }

  /** A project admin passes a request on to the platform; one that is there already stays. */
  lemma PassingOnExactly(x: World, id: Id, actor: Actor, now: int)
    ensures var (y, r) := ApproveDestroyProject(x, id, actor, now);
            && Do(x, OpApproveDestroyProject(id, actor), now) == y
            && (r == Done <==> id in x.db.workspaces && AtLeast(actor, 30)
                               && x.db.workspaces[id].status in {DestroyRequested, DestroyPendingPlatform})
            && (r == Done && x.db.workspaces[id].status == DestroyRequested ==> StatusSet(x, y, id, DestroyPendingPlatform) && y.guests == x.guests)
            && (r != Done || x.db.workspaces[id].status == DestroyPendingPlatform ==> y == x)
  {
    MemberExactly(actor, 30);
    hide Actor.Member, AtLeast;
  }

  // ----- power

  predicate MayPower(x: World, id: Id, actor: Actor) {
    && id in x.db.workspaces && MayUse(x.db, actor, x.db.workspaces[id].project, 20)
    && x.db.workspaces[id].status in {Provisioning, Running, Stopped, Failed, NodeLost, FabricDegraded, Suspended}
    && id in x.guests
  }

  lemma StopExactly(x: World, id: Id, actor: Actor, now: int)
    ensures var (y, r) := Stop(x, id, actor, now);
            && Do(x, OpStop(id, actor), now) == y
            && (r == Done <==> MayPower(x, id, actor)) && (r != Done ==> y == x)
            && (r == Done ==> StatusSet(x, y, id, Stopped) && y.guests == x.guests[id := false])
  {
    hide Ready, MayUse;
    if id in x.db.workspaces {
      ReadyExactly(x.db, actor, x.db.workspaces[id].project, 20);
    }
  }

  lemma StartExactly(x: World, id: Id, actor: Actor, now: int)
    ensures var (y, r) := Start(x, id, actor, now);
            && Do(x, OpStart(id, actor), now) == y
            && (r == Done <==> MayPower(x, id, actor)) && (r != Done ==> y == x)
            && (r == Done ==> StatusSet(x, y, id, Running) && y.guests == x.guests[id := true] && y.db.workspaces[id].lastActivityAt == now)
  {
    hide Ready, MayUse;
    if id in x.db.workspaces {
      ReadyExactly(x.db, actor, x.db.workspaces[id].project, 20);
    }
  }

  /** A session wakes what is suspended or stopped and has an instance, and nothing else. */
  lemma WakeExactly(x: World, id: Id, now: int)
    ensures var (y, r) := Wake(x, id, now);
            var asleep := id in x.db.workspaces && x.db.workspaces[id].status in {Suspended, Stopped};
            && Do(x, OpWake(id), now) == y
            && (r == Done <==> id in x.db.workspaces && (asleep ==> id in x.guests))
            && (asleep && id in x.guests ==>
                  StatusSet(x, y, id, Running) && y.guests == x.guests[id := true] && y.db.workspaces[id].lastActivityAt == now)
            && (!(asleep && id in x.guests) ==> y == x)
  {}

  // ----- idling

  /** When the workspace was last used: the first of three times that is known. */
  predicate IdleSince(w: Workspace, t: int) {
    if w.lastActivityAt != 0 then t == w.lastActivityAt else if w.updatedAt != 0 then t == w.updatedAt else t == w.createdAt
  }

  /** It runs, has an instance, and has been idle for its own number of hours, or for the default one if it has none. */
  ghost predicate Idle(x: World, id: Id, defaultHours: int, now: int) {
    && id in x.db.workspaces && x.db.workspaces[id].status in {Running, FabricDegraded} && id in x.guests
    && var w := x.db.workspaces[id];
       var hours := if w.idleHours > 0 then w.idleHours else defaultHours;
       hours > 0 && exists t :: IdleSince(w, t) && now >= t + hours * 3600
  }

  /** Idle workspaces are suspended, and no others. */
  lemma SuspendExactly(x: World, id: Id, defaultHours: int, now: int)
    ensures var y := Do(x, OpSuspendIdle(id, defaultHours), now);
            if Idle(x, id, defaultHours, now) then StatusSet(x, y, id, Suspended) && y.guests == x.guests[id := false] else y == x
  {
    if id in x.db.workspaces {
      assert IdleSince(x.db.workspaces[id], LastActivity(x.db.workspaces[id]));
    }
  }

  // ----- health

  /** What a node's health makes of an operational workspace: everything else keeps its status. */
  function Implied(st: Status, health: Option<Health>): Status {
    match (st, health)
    case (Running, Some(Degraded)) => FabricDegraded
    case (NodeLost, Some(Healthy)) => Running
    case (Running, Some(Offline)) => NodeLost
    case (Stopped, Some(Offline)) => NodeLost
    case (Suspended, Some(Offline)) => NodeLost
    case (FabricDegraded, Some(Offline)) => NodeLost
    case (Running, None) => NodeLost
    case (Stopped, None) => NodeLost
    case (Suspended, None) => NodeLost
    case (FabricDegraded, None) => NodeLost
    case _ => st
  }

  /** A workspace without a node is left alone; None stands for a node that is gone. */
  lemma HealthExactly(s: State, guests: map<Id, bool>, id: Id, now: int)
    ensures Do(World(s, guests), OpHealth(id), now) == World(CheckHealth(s, id, now), guests)
    ensures var t := CheckHealth(s, id, now);
            if id !in s.workspaces || s.workspaces[id].node == NIL then t == s
            else
              var w := s.workspaces[id];
              var st := Implied(w.status, if w.node in s.nodes then Some(s.nodes[w.node].health) else None);
              t == if st == w.status then s else s.(workspaces := s.workspaces[id := w.(status := st, updatedAt := now)])
  {}

  // ----- stuck provisions

  /** A workspace that has been provisioning for twenty minutes fails, without its instance and its reservation. */
  lemma FailStuckExactly(x: World, id: Id, now: int)
    requires C.Conserved(x.db)
    ensures var y := Do(x, OpFailStuck(id), now);
            if id in x.db.workspaces && x.db.workspaces[id].status == Provisioning && now - x.db.workspaces[id].updatedAt >= 1200 then
              && y.db.workspaces == x.db.workspaces[id := x.db.workspaces[id].(status := Failed, updatedAt := now)]
              && (if x.db.workspaces[id].alloc != NIL then Outcomes.GivenUp(x.db, y.db, x.db.workspaces[id].alloc)
                  else y.db.allocs == x.db.allocs && y.db.nodes == x.db.nodes)
              && y.guests == x.guests - {id}
            else y == x
  {
    hide C.Conserved, State.Release, Outcomes.GivenUp;
    if id in x.db.workspaces {
      var a := x.db.workspaces[id].alloc;
      Outcomes.ReleaseGivesUp(x.db, a);
      ReleaseEffect(x.db, a);
      Outcomes.GivenUpReads(x.db, x.db, x.db.Release(a).0,
                            x.db.Release(a).0.PutWorkspace(id, x.db.workspaces[id].(status := Failed, updatedAt := now)), a);
    }
  }
}
