/** The approval machine, and how the life of a destroy request runs through it. */
module Phases {
  import opened Models
  import opened Store
  import opened App
  import opened AppSteps
  import opened Moves
  import opened ReviewRuns

  datatype Kind = WorkspaceCreate | WorkspaceResize | WorkspaceDestroy | SshAccess

  datatype Level = Safe | Dangerous

  datatype Phase = NoPhase | PendingProject | ApprovedProject | PendingPlatform | Refused | Finished

  function LevelForKind(k: Kind): Level { if k == WorkspaceDestroy then Dangerous else Safe }

  function NextAfterProjectApprove(k: Kind): Phase {
    match LevelForKind(k)
    case Safe => ApprovedProject
    case Dangerous => PendingPlatform
  }

  predicate CanProjectApprove(phase: Phase, k: Kind) {
    phase !in {Refused, Finished} && phase in {PendingProject, NoPhase}
  }

  predicate CanPlatformApprove(phase: Phase, k: Kind) { LevelForKind(k) == Dangerous && phase == PendingPlatform }

  predicate ValidTransition(from: Phase, to: Phase) {
    || from == to
    || match from
       case NoPhase => to == PendingProject
       case PendingProject => to in {ApprovedProject, PendingPlatform, Refused}
       case ApprovedProject => to == Finished
       case PendingPlatform => to in {Finished, Refused}
       case _ => false
  }

  /** An edge that a request of kind k can take: project approval leads where the kind's level says. */
  predicate Edge(k: Kind, from: Phase, to: Phase) {
    ValidTransition(from, to) && (from == PendingProject && to in {ApprovedProject, PendingPlatform} ==> to == NextAfterProjectApprove(k))
  }

  ghost predicate Path(k: Kind, path: seq<Phase>) {
    |path| > 0 && forall i :: 0 <= i < |path| - 1 ==> Edge(k, path[i], path[i + 1])
  }

  /** A destroy request that gets done was pending at the platform before. */
  lemma {:induction false} DoneNeedsPlatform(path: seq<Phase>)
    requires Path(WorkspaceDestroy, path) && path[|path| - 1] == Finished && path[0] in {NoPhase, PendingProject, PendingPlatform}
    ensures PendingPlatform in path
  {
    if path[0] != PendingPlatform {
      if |path| > 1 {
        assert Edge(WorkspaceDestroy, path[0], path[1]);
        var rest := path[1..];
        assert forall i :: 0 <= i < |rest| ==> rest[i] == path[i + 1];
        if path[1] == Refused {
          RefusedIsFinal(rest);
        } else {
          DoneNeedsPlatform(rest);
        }
      }
    }
  }

  lemma {:induction false} RefusedIsFinal(path: seq<Phase>)
    requires Path(WorkspaceDestroy, path) && path[0] == Refused
    ensures path[|path| - 1] == Refused
  {
    if |path| > 1 {
      assert Edge(WorkspaceDestroy, path[0], path[1]);
      assert forall i :: 0 <= i < |path| - 1 ==> path[1..][i] == path[i + 1];
      RefusedIsFinal(path[1..]);
    }
  }

  /** From its beginning to its end. */
  ghost predicate Completes(k: Kind, path: seq<Phase>) { Path(k, path) && path[0] == NoPhase && path[|path| - 1] == Finished }

  /** Exactly the dangerous kinds cannot get done without the platform. */
  lemma PlatformGuardsExactly(k: Kind)
    ensures (forall path :: Completes(k, path) ==> PendingPlatform in path) <==> LevelForKind(k) == Dangerous
  {
    if LevelForKind(k) == Dangerous {
      forall path | Completes(k, path) ensures PendingPlatform in path {
        DoneNeedsPlatform(path);
      }
    } else {
      assert Completes(k, [NoPhase, PendingProject, ApprovedProject, Finished]);
    }
  }

  /** The transitions that there are. */
  lemma TransitionsExactly(from: Phase, to: Phase)
    ensures ValidTransition(from, to) <==>
              from == to || (from, to) in {
                (NoPhase, PendingProject), (PendingProject, ApprovedProject), (PendingProject, PendingPlatform), (PendingProject, Refused),
                (ApprovedProject, Finished), (PendingPlatform, Finished), (PendingPlatform, Refused)}
  {}

  /** The guard for project approvals follows the table, except that it also lets a request without a phase through. */
  lemma ProjectApprovalIsAnEdge(phase: Phase, k: Kind)
    requires CanProjectApprove(phase, k)
    ensures phase in {NoPhase, PendingProject}
    ensures Edge(k, phase, NextAfterProjectApprove(k)) <==> phase == PendingProject
  {}

  /** The platform may finish exactly the dangerous requests that wait for it. */
  lemma PlatformApprovalIsAnEdge(phase: Phase, k: Kind)
    ensures CanPlatformApprove(phase, k) <==>
              LevelForKind(k) == Dangerous && phase != Finished && phase != ApprovedProject && Edge(k, phase, Finished)
  {}

  /** The phase of the destroy request that a status stands for. */
  function PhaseOf(st: Status): Phase {
    match st
    case DestroyRequested => PendingProject
    case DestroyPendingPlatform => PendingPlatform
    case Destroying => Finished
    case Destroyed => Finished
    case _ => NoPhase
  }

  /** Where one operation takes the request: a review that is left without destruction was refused. */
  function PhaseAfter(from: Status, to: Status): Phase {
    if from.ReviewInFlight() && !to.ReviewInFlight() && !to.Gone() then Refused else PhaseOf(to)
  }

  /** The edges, in order, that lead from one phase of a destroy request to a later one. */
  function Route(from: Phase, to: Phase): seq<Phase> {
    if from == to then [from]
    else if from == NoPhase && to == PendingPlatform then [NoPhase, PendingProject, PendingPlatform]
    else if from == NoPhase && to == Finished then [NoPhase, PendingProject, PendingPlatform, Finished]
    else if from == PendingProject && to == Finished then [PendingProject, PendingPlatform, Finished]
    else [from, to]
  }

  /** Every operation moves a destroy request along the machine, possibly over several edges at once. */
  lemma OperationsFollowMachine(x: World, op: Op, now: int, id: Id)
    requires Legal(x, op) && id in x.db.workspaces
    ensures var y := Do(x, op, now);
            id in y.db.workspaces
            && var from, to := x.db.workspaces[id].status, y.db.workspaces[id].status;
               var route := Route(PhaseOf(from), PhaseAfter(from, to));
               Path(WorkspaceDestroy, route) && route[0] == PhaseOf(from) && route[|route| - 1] == PhaseAfter(from, to)
  {
    hide Do, Legal, RestoredStatus;
    EveryMoveIsAllowed(x, op, now, id);
    RestoredIsOperational(x.db, id);
  }

  // ----- a destroy request over a whole run

  predicate InReview(x: World, id: Id) {
    id in x.db.workspaces && x.db.workspaces[id].status in {DestroyRequested, DestroyPendingPlatform}
  }

  /** The phase of the destroy request about id; a workspace that is not there has none. */
  function Current(x: World, id: Id): Phase { if id in x.db.workspaces then PhaseOf(x.db.workspaces[id].status) else NoPhase }

  /** Where the request is one operation later. */
  function Later(x: World, y: World, id: Id): Phase {
    if InReview(x, id) && Current(y, id) == NoPhase then Refused else Current(y, id)
  }

  /** The phases that the request about id goes through from step k to step n of a run; a refusal ends it. */
  ghost function Life(run: seq<World>, id: Id, k: nat, n: nat): (life: seq<Phase>)
    requires k <= n < |run|
    ensures |life| > 0
  {
    if k == n then [Current(run[k], id)]
    else
      var life := Life(run, id, k, n - 1);
      if life[|life| - 1] == Refused then life
      else life + Route(Current(run[n - 1], id), Later(run[n - 1], run[n], id))[1..]
  }

  lemma StepFollowsMachine(x: World, op: Op, now: int, id: Id)
    requires Legal(x, op)
    ensures var y := Do(x, op, now);
            var route := Route(Current(x, id), Later(x, y, id));
            Path(WorkspaceDestroy, route) && route[0] == Current(x, id) && route[|route| - 1] == Later(x, y, id)
  {
    hide Do, Legal, RestoredStatus, Path, Route;
    if id in x.db.workspaces {
      OperationsFollowMachine(x, op, now, id);
    } else {
      EveryMoveIsAllowed(x, op, now, id);
      StandingStill(NoPhase);
    }
  }

  lemma StandingStill(phase: Phase)
    ensures var route := Route(phase, phase); Path(WorkspaceDestroy, route) && route[0] == phase && route[|route| - 1] == phase
  {}

  lemma JoinPaths(k: Kind, a: seq<Phase>, b: seq<Phase>)
    requires Path(k, a) && Path(k, b) && a[|a| - 1] == b[0]
    ensures var c := a + b[1..]; Path(k, c) && c[0] == a[0] && c[|c| - 1] == b[|b| - 1]
  {
    hide Edge;
    var c := a + b[1..];
    forall i | 0 <= i < |c| - 1 ensures Edge(k, c[i], c[i + 1]) {
      if i >= |a| - 1 {
        var j := i - (|a| - 1);
        assert c[i] == b[j] && c[i + 1] == b[j + 1];
      }
    }
  }

  /**
   In any run, from any point at which no destroy request about id is under way: what happens to the next one follows
   the machine from its first phase on, it ends refused or where the workspace's status says, and it does not get done
   without having been pending at the platform.
   */
  lemma {:induction false} RequestFollowsMachine(run: seq<World>, calls: seq<Call>, k: nat, n: nat, id: Id)
    requires Run(run, calls) && k <= n <= |calls| && Current(run[k], id) == NoPhase
    ensures var life := Life(run, id, k, n);
            && Path(WorkspaceDestroy, life) && life[0] == NoPhase
            && (life[|life| - 1] == Refused || life[|life| - 1] == Current(run[n], id))
            && (life[|life| - 1] == Finished ==> PendingPlatform in life)
  {
    LifeIsPath(run, calls, k, n, id);
    hide Run, Life;
    var life := Life(run, id, k, n);
    if life[|life| - 1] == Finished {
      DoneNeedsPlatform(life);
    }
  }

  lemma {:induction false} LifeIsPath(run: seq<World>, calls: seq<Call>, k: nat, n: nat, id: Id)
    requires Run(run, calls) && k <= n <= |calls| && Current(run[k], id) == NoPhase
    ensures var life := Life(run, id, k, n);
            && Path(WorkspaceDestroy, life) && life[0] == NoPhase
            && (life[|life| - 1] == Refused || life[|life| - 1] == Current(run[n], id))
  {
    hide Do, Legal, Path, Current, Later, Route;
    if k == n {
      NowhereYet();
    } else {
      LifeIsPath(run, calls, k, n - 1, id);
      assert StepAt(run, calls, n - 1);
      var x, y := run[n - 1], run[n];
      StepFollowsMachine(x, calls[n - 1].op, calls[n - 1].now, id);
      var life := Life(run, id, k, n - 1);
      if life[|life| - 1] != Refused {
        var route := Route(Current(x, id), Later(x, y, id));
        JoinPaths(WorkspaceDestroy, life, route);
        LaterIsCurrent(x, y, id);
      }
    }
  }

  lemma NowhereYet()
    ensures Path(WorkspaceDestroy, [NoPhase])
  {}

  lemma LaterIsCurrent(x: World, y: World, id: Id)
    ensures Later(x, y, id) == Refused || Later(x, y, id) == Current(y, id)
  {}

  lemma RestoredIsOperational(s: State, id: Id)
    ensures RestoredStatus(s, id).Restorable()
  {}

  // ----- who destroys, and how

  predicate DestroysAsPlatform(op: Op, id: Id) {
    (op.OpRequestDestroy? || op.OpApproveDestroyPlatform? || op.OpDestroy?) && op.id == id && op.actor.platformAdmin
  }

  predicate Gone(x: World, id: Id) { id in x.db.workspaces && x.db.workspaces[id].status in {Destroying, Destroyed} }

  lemma OnlyPlatformDestroys(x: World, op: Op, now: int, id: Id)
    requires Legal(x, op) && !Gone(x, id) && Gone(Do(x, op, now), id)
    ensures DestroysAsPlatform(op, id)
    ensures id in x.db.workspaces
    ensures op.OpApproveDestroyPlatform? ==> x.db.workspaces[id].status == DestroyPendingPlatform
    ensures op.OpRequestDestroy? ==> x.db.workspaces[id].status !in {DestroyRequested, DestroyPendingPlatform}
  {
    hide Do, Legal, RestoredStatus;
    EveryMoveIsAllowed(x, op, now, id);
    RestoredIsOperational(x.db, id);
  }

  /** Step i destroys id: a platform admin approves the review that waits for it, or destroys on its own account. */
  ghost predicate DestroyedAt(run: seq<World>, calls: seq<Call>, i: nat, id: Id)
    requires |run| == |calls| + 1 && i < |calls|
  {
    var op := calls[i].op;
    && !Gone(run[i], id) && id in run[i].db.workspaces && Gone(run[i + 1], id) && DestroysAsPlatform(op, id)
    && (op.OpApproveDestroyPlatform? ==> run[i].db.workspaces[id].status == DestroyPendingPlatform)
    && (op.OpRequestDestroy? ==> run[i].db.workspaces[id].status !in {DestroyRequested, DestroyPendingPlatform})
  }

  /**
   Over whole runs nothing, old or new, gets destroyed unless a platform admin acted on it: by approving it while it
   was pending at the platform, or by asking for, or forcing, its destruction.
   */
  lemma {:induction false} DestructionNeedsPlatformAdmin(run: seq<World>, calls: seq<Call>, n: nat, id: Id)
    requires Run(run, calls) && n <= |calls| && !Gone(run[0], id) && Gone(run[n], id)
    ensures exists i: nat :: i < n && DestroyedAt(run, calls, i, id)
  {
    hide Do, Legal, DestroysAsPlatform, Gone;
    if n > 0 {
      assert StepAt(run, calls, n - 1);
      if Gone(run[n - 1], id) {
        DestructionNeedsPlatformAdmin(run, calls, n - 1, id);
      } else {
        OnlyPlatformDestroys(run[n - 1], calls[n - 1].op, calls[n - 1].now, id);
        assert DestroyedAt(run, calls, n - 1, id);
      }
    }
  }

  // ----- the two approvals

  predicate AtPlatform(x: World, id: Id) { id in x.db.workspaces && x.db.workspaces[id].status == DestroyPendingPlatform }

  /** Step j passes the request about id on to the platform: an approver either approves it or makes it. */
  ghost predicate PassedOnAt(run: seq<World>, calls: seq<Call>, j: nat, id: Id)
    requires |run| == |calls| + 1 && j < |calls|
  {
    var op := calls[j].op;
    && !AtPlatform(run[j], id) && AtPlatform(run[j + 1], id)
    && (op.OpApproveDestroyProject? || op.OpRequestDestroy? || op.OpDestroy?) && op.id == id && op.actor.CanApprove()
  }

  lemma OnlyApproversPassOn(x: World, op: Op, now: int, id: Id)
    requires Legal(x, op) && !AtPlatform(x, id) && AtPlatform(Do(x, op, now), id)
    ensures (op.OpApproveDestroyProject? || op.OpRequestDestroy? || op.OpDestroy?) && op.id == id && op.actor.CanApprove()
  {
    hide Do, Legal, RestoredStatus;
    EveryMoveIsAllowed(x, op, now, id);
    RestoredIsOperational(x.db, id);
  }

  lemma {:induction false} PendingWasPassedOn(run: seq<World>, calls: seq<Call>, n: nat, id: Id)
    requires Run(run, calls) && n <= |calls| && !AtPlatform(run[0], id) && AtPlatform(run[n], id)
    ensures exists j: nat :: j < n && PassedOnAt(run, calls, j, id) && forall i :: j < i <= n ==> AtPlatform(run[i], id)
  {
    hide Do, Legal, AtPlatform;
    if n > 0 {
      assert StepAt(run, calls, n - 1);
      if AtPlatform(run[n - 1], id) {
        PendingWasPassedOn(run, calls, n - 1, id);
        var j: nat :| j < n - 1 && PassedOnAt(run, calls, j, id) && forall i :: j < i <= n - 1 ==> AtPlatform(run[i], id);
        assert PassedOnAt(run, calls, j, id) && forall i :: j < i <= n ==> AtPlatform(run[i], id);
      } else {
        OnlyApproversPassOn(run[n - 1], calls[n - 1].op, calls[n - 1].now, id);
        assert PassedOnAt(run, calls, n - 1, id);
      }
    }
  }

  /**
   A workspace destroyed by the platform's approval had been passed on to the platform by an approver of the project
   before, and stayed there in between. Only a platform admin's own request or force does without the first of the two.
   */
  lemma TwoApprovals(run: seq<World>, calls: seq<Call>, n: nat, id: Id)
    requires Run(run, calls) && n <= |calls| && !Gone(run[0], id) && !AtPlatform(run[0], id) && Gone(run[n], id)
    ensures exists i: nat :: i < n && DestroyedAt(run, calls, i, id)
              && (calls[i].op.OpApproveDestroyPlatform?
                  ==> exists j: nat :: j < i && PassedOnAt(run, calls, j, id) && forall h :: j < h <= i ==> AtPlatform(run[h], id))
  {
    hide Gone, PassedOnAt;
    DestructionNeedsPlatformAdmin(run, calls, n, id);
    var i: nat :| i < n && DestroyedAt(run, calls, i, id);
    if calls[i].op.OpApproveDestroyPlatform? {
      PendingWasPassedOn(run, calls, i, id);
    }
  }
}
